/** `auto_upload.py`: the auto-upload endpoint. The network is replaced by
    an `Environment` of responses, and every request the handler sends is
    recorded, in order, as a `Call`. */
module AutoUpload {
  import opened Wrappers
  import opened Text
  import opened Frames
  import opened Http
  import Blob

  /** Rows per push request (auto_upload.py:71). */
  const ChunkRows: nat := 10000
  /** List requests made while waiting for the imported dataset (auto_upload.py:46). */
  const PollAttempts: nat := 10

  const DefaultContainer: string := "tableau-datasources"
  const DefaultFolder: string := "raju"
  const ReportNameMissing: string := "Report name missing"
  const DatasetNotFound: string := "Dataset not found after upload"
  const Completed: string := "Migration completed successfully"

  /** A dataset entry of the `value` list of a dataset listing. */
  datatype Dataset = Dataset(id: string, name: string)

  /** The answer to one dataset-list request: whether it was ok, and its
      datasets (empty when the body has no `value`). */
  datatype Listing = Listing(ok: bool, datasets: seq<Dataset>)

  /** Everything outside the handler: the template download (its error, if
      any), the import response, the answers to the ten list requests, and
      blob storage. */
  datatype Environment = Environment(
    templateFailure: Option<string>,
    uploadStatus: int,
    uploadBody: string,
    listings: seq<Listing>,
    store: Blob.Storage)

  /** The requests the handler sends, in order. */
  datatype Call =
    | DownloadTemplate
    | Upload(workspaceId: string, reportName: string)
    | ListDatasets(workspaceId: string)
    | ReadBlobs(container: string, folder: string)
    | DeleteRows(datasetId: string, table: string)
    | PostRows(datasetId: string, table: string, rows: seq<Row>)

  /** The success body of the endpoint. */
  datatype Summary = Summary(message: string, datasetId: string, syncedTables: seq<string>)

  // ---------------------------------------------------------------------
  // Request fields

  /** `payload.get("report_name")`, counted as missing when absent or empty. */
  function ReportName(payload: map<string, string>): (r: Option<string>)
    ensures r.Some? <==> "report_name" in payload && payload["report_name"] != ""
    ensures r.Some? ==> r.value == payload["report_name"] && r.value != ""
  {
    if "report_name" in payload && payload["report_name"] != "" then Some(payload["report_name"]) else None
  }

  /** `payload.get(key, default)`. */
  function Field(payload: map<string, string>, key: string, default: string): string {
    if key in payload then payload[key] else default
  }

  predicate Accepted(status: int) {
    status == 200 || status == 201 || status == 202
  }

  // ---------------------------------------------------------------------
  // Finding the imported dataset

  predicate NamesReport(d: Dataset, reportName: string) {
    EqualIgnoringCase(d.name, reportName)
  }

  /** The `next(...)` of auto_upload.py:51: the position of the first dataset
      whose name equals the report name ignoring case. */
  function FirstMatch(datasets: seq<Dataset>, reportName: string): (r: Option<nat>)
    ensures r.Some? ==> r.value < |datasets| && NamesReport(datasets[r.value], reportName)
    ensures r.Some? ==> forall j :: 0 <= j < r.value ==> !NamesReport(datasets[j], reportName)
    ensures r.None? <==> forall j :: 0 <= j < |datasets| ==> !NamesReport(datasets[j], reportName)
  {
    if datasets == [] then None
    else if NamesReport(datasets[0], reportName) then Some(0)
    else match FirstMatch(datasets[1..], reportName)
      case None => None
      case Some(k) => Some(k + 1)
  }

  /** A list response that ends the polling. */
  predicate Hit(l: Listing, reportName: string) {
    l.ok && FirstMatch(l.datasets, reportName).Some?
  }

  function MatchOf(l: Listing, reportName: string): Dataset
    requires Hit(l, reportName)
  {
    l.datasets[FirstMatch(l.datasets, reportName).value]
  }

  /** The outcome of polling: how many list requests were sent and the
      dataset found, if any. */
  datatype Poll = Poll(attempts: nat, found: Option<Dataset>)

  /** Polling from attempt `k` on (auto_upload.py:45-54). */
  function PollFrom(listings: seq<Listing>, reportName: string, k: nat): (r: Poll)
    requires |listings| == PollAttempts && k <= PollAttempts
    ensures k <= r.attempts <= PollAttempts
    ensures r.found.Some? ==>
              && k < r.attempts
              && Hit(listings[r.attempts - 1], reportName)
              && r.found.value == MatchOf(listings[r.attempts - 1], reportName)
              && forall j :: k <= j < r.attempts - 1 ==> !Hit(listings[j], reportName)
    ensures r.found.None? ==>
              && r.attempts == PollAttempts
              && forall j :: k <= j < PollAttempts ==> !Hit(listings[j], reportName)
    decreases PollAttempts - k
  {
    if k == PollAttempts then Poll(k, None)
    else if Hit(listings[k], reportName) then Poll(k + 1, Some(MatchOf(listings[k], reportName)))
    else PollFrom(listings, reportName, k + 1)
  }

  /** The dataset id the handler goes on with: `if not dataset_id` also
      rejects a matched dataset whose id is empty. */
  function DatasetId(p: Poll): (r: Option<string>)
    ensures r.Some? <==> p.found.Some? && p.found.value.id != ""
    ensures r.Some? ==> r.value == p.found.value.id
  {
    if p.found.Some? && p.found.value.id != "" then Some(p.found.value.id) else None
  }

  /** The polling loop (auto_upload.py:45-54). */
  method PollForDataset(listings: seq<Listing>, reportName: string) returns (attempts: nat, found: Option<Dataset>)
    requires |listings| == PollAttempts
    ensures Poll(attempts, found) == PollFrom(listings, reportName, 0)
  {
    attempts, found := 0, None;
    while attempts < PollAttempts
      invariant attempts <= PollAttempts
      invariant PollFrom(listings, reportName, 0) == PollFrom(listings, reportName, attempts)
    {
      var response := listings[attempts];
      attempts := attempts + 1;
      if response.ok {
        var target := FirstMatch(response.datasets, reportName);
        if target.Some? {
          found := Some(response.datasets[target.value]);
          return;
        }
      }
    }
  }

  function ListCalls(workspaceId: string, n: nat): (r: seq<Call>)
    ensures |r| == n && forall i :: 0 <= i < n ==> r[i] == ListDatasets(workspaceId)
  {
    seq(n, _ => ListDatasets(workspaceId))
  }

  // ---------------------------------------------------------------------
  // Row chunks

  function Min(a: int, b: int): int {
    if a <= b then a else b
  }

  /** The chunks `rows[i : i + 10000]` for `i` in `range(k, len(rows), 10000)`. */
  function ChunksFrom(rows: seq<Row>, k: nat): seq<seq<Row>>
    decreases |rows| - k
  {
    if k >= |rows| then []
    else [rows[k..Min(k + ChunkRows, |rows|)]] + ChunksFrom(rows, k + ChunkRows)
  }

  function Chunks(rows: seq<Row>): seq<seq<Row>> {
    ChunksFrom(rows, 0)
  }

  function Flatten(chunks: seq<seq<Row>>): seq<Row> {
    if chunks == [] then [] else chunks[0] + Flatten(chunks[1..])
  }

  lemma {:induction false} ChunksFromBounded(rows: seq<Row>, k: nat)
    ensures forall c :: c in ChunksFrom(rows, k) ==> 0 < |c| <= ChunkRows
    decreases |rows| - k
  {
    if k < |rows| {
      ChunksFromBounded(rows, k + ChunkRows);
    }
  }

  lemma {:induction false} ChunksFromCount(rows: seq<Row>, k: nat)
    requires k <= |rows|
    ensures |ChunksFrom(rows, k)| == (|rows| - k + ChunkRows - 1) / ChunkRows
    decreases |rows| - k
  {
    if k < |rows| && k + ChunkRows <= |rows| {
      ChunksFromCount(rows, k + ChunkRows);
    }
  }

  lemma {:induction false} ChunksFromConcat(rows: seq<Row>, k: nat)
    requires k <= |rows|
    ensures Flatten(ChunksFrom(rows, k)) == rows[k..]
    decreases |rows| - k
  {
    if k < |rows| {
      var rest := ChunksFrom(rows, k + ChunkRows);
      var all := ChunksFrom(rows, k);
      assert all[1..] == rest;
      if k + ChunkRows <= |rows| {
        ChunksFromConcat(rows, k + ChunkRows);
        assert rows[k..] == rows[k..k + ChunkRows] + rows[k + ChunkRows..];
      } else {
        assert rest == [];
      }
    }
  }

  /** The chunks of a table partition its rows in order: none is empty or
      over 10,000 rows, there are ceil(n / 10000) of them (none for an empty
      table), and together they are the rows. */
  lemma ChunksPartition(rows: seq<Row>)
    ensures forall c :: c in Chunks(rows) ==> 0 < |c| <= ChunkRows
    ensures |Chunks(rows)| == (|rows| + ChunkRows - 1) / ChunkRows
    ensures rows == [] ==> Chunks(rows) == []
    ensures Flatten(Chunks(rows)) == rows
  {
    ChunksFromBounded(rows, 0);
    ChunksFromCount(rows, 0);
    ChunksFromConcat(rows, 0);
  }

  // ---------------------------------------------------------------------
  // Syncing the tables

  /** One push request per chunk, in order. */
  function PostCalls(datasetId: string, table: string, chunks: seq<seq<Row>>): seq<Call> {
    if chunks == [] then [] else [PostRows(datasetId, table, chunks[0])] + PostCalls(datasetId, table, chunks[1..])
  }

  lemma {:induction false} PostCallsShape(datasetId: string, table: string, chunks: seq<seq<Row>>)
    ensures |PostCalls(datasetId, table, chunks)| == |chunks|
    ensures forall i :: 0 <= i < |chunks| ==> PostCalls(datasetId, table, chunks)[i] == PostRows(datasetId, table, chunks[i])
  {
    if chunks != [] {
      PostCallsShape(datasetId, table, chunks[1..]);
    }
  }

  /** The requests for one table: clear it, then push its chunks. */
  function TableCalls(datasetId: string, t: Blob.NamedTable): seq<Call> {
    [DeleteRows(datasetId, t.0)] + PostCalls(datasetId, t.0, Chunks(t.1.rows))
  }

  function SyncCalls(datasetId: string, tables: seq<Blob.NamedTable>): seq<Call> {
    if tables == [] then []
    else SyncCalls(datasetId, tables[..|tables| - 1]) + TableCalls(datasetId, tables[|tables| - 1])
  }

  function TableNames(tables: seq<Blob.NamedTable>): seq<string> {
    if tables == [] then [] else TableNames(tables[..|tables| - 1]) + [tables[|tables| - 1].0]
  }

  /** `synced_tables` names every table of the blob result, once, in order. */
  lemma {:induction false} TableNamesInOrder(tables: seq<Blob.NamedTable>)
    ensures |TableNames(tables)| == |tables|
    ensures forall i :: 0 <= i < |tables| ==> TableNames(tables)[i] == tables[i].0
  {
    if tables != [] {
      TableNamesInOrder(tables[..|tables| - 1]);
    }
  }

  /** The chunk loop of auto_upload.py:70-73. */
  method PushTableRows(datasetId: string, table: string, rows: seq<Row>) returns (calls: seq<Call>)
    ensures calls == PostCalls(datasetId, table, Chunks(rows))
  {
    calls := [];
    var i := 0;
    while i < |rows|
      invariant calls + PostCalls(datasetId, table, ChunksFrom(rows, i)) == PostCalls(datasetId, table, Chunks(rows))
      decreases |rows| - i
    {
      var chunk := rows[i..Min(i + ChunkRows, |rows|)];
      var rest := ChunksFrom(rows, i + ChunkRows);
      assert ChunksFrom(rows, i) == [chunk] + rest;
      assert ([chunk] + rest)[1..] == rest;
      calls := calls + [PostRows(datasetId, table, chunk)];
      i := i + ChunkRows;
    }
    assert calls + [] == calls;
  }

  /** The table loop of auto_upload.py:61-75. No response is inspected, so
      every table is reported as synced. */
  method SyncTables(datasetId: string, tables: seq<Blob.NamedTable>) returns (synced: seq<string>, calls: seq<Call>)
    ensures synced == TableNames(tables)
    ensures calls == SyncCalls(datasetId, tables)
  {
    synced, calls := [], [];
    for k := 0 to |tables|
      invariant synced == TableNames(tables[..k])
      invariant calls == SyncCalls(datasetId, tables[..k])
    {
      var (tableName, df) := tables[k];
      assert tables[..k + 1][..k] == tables[..k];
      calls := calls + [DeleteRows(datasetId, tableName)];
      var pushed := PushTableRows(datasetId, tableName, df.rows);
      calls := calls + pushed;
      synced := synced + [tableName];
    }
    assert tables[..|tables|] == tables;
  }

  // ---------------------------------------------------------------------
  // The handler

  /** What the handler answers and sends once the import is accepted. */
  ghost function AfterImport(workspaceId: string, reportName: string, container: string, folder: string, env: Environment)
    : (Result<Summary, Error>, seq<Call>)
    requires |env.listings| == PollAttempts
  {
    var poll := PollFrom(env.listings, reportName, 0);
    var data := Blob.DataframesFromBlob(env.store, container, folder);
    var polled := ListCalls(workspaceId, poll.attempts);
    if DatasetId(poll).None? then
      (Failure(HttpError(404, DatasetNotFound)), polled)
    else if data.Failure? then
      (Failure(Unhandled(data.error)), polled + [ReadBlobs(container, folder)])
    else
      (Success(Summary(Completed, DatasetId(poll).value, TableNames(data.value))),
       polled + [ReadBlobs(container, folder)] + SyncCalls(DatasetId(poll).value, data.value))
  }

  /** When polling finds no dataset with an id, the answer is 404 after the
      list requests alone: at most ten of them, and no blob read, delete or
      push. */
  lemma NotFoundSendsOnlyListRequests(workspaceId: string, reportName: string, container: string, folder: string, env: Environment)
    requires |env.listings| == PollAttempts
    requires DatasetId(PollFrom(env.listings, reportName, 0)).None?
    ensures AfterImport(workspaceId, reportName, container, folder, env).0 == Failure(HttpError(404, DatasetNotFound))
    ensures var calls := AfterImport(workspaceId, reportName, container, folder, env).1;
            && 1 <= |calls| <= PollAttempts
            && forall i :: 0 <= i < |calls| ==> calls[i] == ListDatasets(workspaceId)
  {
  }

  /** A container that cannot be listed (a mistyped `container_name`, an
      unreachable account) ends the request with the listing's exception
      after the dataset is found: list requests, then the blob read, and no
      delete or push. */
  lemma UnlistableContainerStopsSync(workspaceId: string, reportName: string, container: string, folder: string, env: Environment)
    requires |env.listings| == PollAttempts
    requires DatasetId(PollFrom(env.listings, reportName, 0)).Some?
    requires env.store.names(container).Failure?
    ensures AfterImport(workspaceId, reportName, container, folder, env).0 == Failure(Unhandled(env.store.names(container).error))
    ensures var calls := AfterImport(workspaceId, reportName, container, folder, env).1;
            && 2 <= |calls| <= PollAttempts + 1
            && calls[|calls| - 1] == ReadBlobs(container, folder)
            && forall i :: 0 <= i < |calls| - 1 ==> calls[i] == ListDatasets(workspaceId)
  {
    Blob.ListingFailurePropagates(env.store, container, folder);
  }

  /** When the dataset is found and every blob reads, the request succeeds
      and `synced_tables` holds the table name of every selected blob, in
      listing order. */
  lemma SyncedTablesFollowListing(workspaceId: string, reportName: string, container: string, folder: string, env: Environment)
    requires |env.listings| == PollAttempts
    requires DatasetId(PollFrom(env.listings, reportName, 0)).Some?
    requires Blob.DataframesFromBlob(env.store, container, folder).Success?
    ensures AfterImport(workspaceId, reportName, container, folder, env).0.Success?
    ensures env.store.names(container).Success?
    ensures var selected := Blob.Selected(Blob.ListBlobs(env.store.names(container).value, Blob.ListingPrefix(folder)));
            var synced := AfterImport(workspaceId, reportName, container, folder, env).0.value.syncedTables;
            && |synced| == |selected|
            && forall i :: 0 <= i < |synced| ==> synced[i] == Blob.TableName(selected[i])
  {
    Blob.EntriesOfSelectedBlobs(env.store, container, folder);
    TableNamesInOrder(Blob.DataframesFromBlob(env.store, container, folder).value);
  }

  /** The part of `auto_upload` after an accepted import (auto_upload.py:44-81):
      find the dataset, read the blobs, sync every table. */
  method SyncAfterImport(workspaceId: string, reportName: string, container: string, folder: string, env: Environment)
    returns (resp: Result<Summary, Error>, calls: seq<Call>)
    requires |env.listings| == PollAttempts
    ensures (resp, calls) == AfterImport(workspaceId, reportName, container, folder, env)
  {
    var attempts, found := PollForDataset(env.listings, reportName);
    calls := ListCalls(workspaceId, attempts);
    if found.None? || found.value.id == "" {
      resp := Failure(HttpError(404, DatasetNotFound));
      return;
    }
    var datasetId := found.value.id;

    calls := calls + [ReadBlobs(container, folder)];
    var data := Blob.GetDataframesFromBlob(env.store, container, folder);
    if data.Failure? {
      resp := Failure(Unhandled(data.error));
      return;
    }
    var synced, pushed := SyncTables(datasetId, data.value);
    calls := calls + pushed;
    resp := Success(Summary(Completed, datasetId, synced));
  }

  /** `auto_upload` (auto_upload.py:11-81). */
  method HandleAutoUpload(workspaceId: string, session: Option<string>, payload: map<string, string>, env: Environment)
    returns (resp: Result<Summary, Error>, calls: seq<Call>)
    requires |env.listings| == PollAttempts
    ensures !HasToken(session) ==> resp == Failure(HttpError(401, NotLoggedIn)) && calls == []
    ensures HasToken(session) && ReportName(payload).None? ==>
              resp == Failure(HttpError(400, ReportNameMissing)) && calls == []
    ensures HasToken(session) && ReportName(payload).Some? && env.templateFailure.Some? ==>
              resp == Failure(Unhandled(env.templateFailure.value)) && calls == [DownloadTemplate]
    ensures HasToken(session) && ReportName(payload).Some? && env.templateFailure.None? && !Accepted(env.uploadStatus) ==>
              && resp == Failure(HttpError(env.uploadStatus, env.uploadBody))
              && calls == [DownloadTemplate, Upload(workspaceId, ReportName(payload).value)]
    ensures HasToken(session) && ReportName(payload).Some? && env.templateFailure.None? && Accepted(env.uploadStatus) ==>
              var name := ReportName(payload).value;
              var later := AfterImport(workspaceId, name, Field(payload, "container_name", DefaultContainer),
                                       Field(payload, "folder_path", DefaultFolder), env);
              resp == later.0 && calls == [DownloadTemplate, Upload(workspaceId, name)] + later.1
  {
    if !(session.Some? && session.value != "") {
      return Failure(HttpError(401, NotLoggedIn)), [];
    }
    var reportName := if "report_name" in payload then payload["report_name"] else "";
    var containerName := if "container_name" in payload then payload["container_name"] else DefaultContainer;
    var folderPath := if "folder_path" in payload then payload["folder_path"] else DefaultFolder;
    if reportName == "" {
      return Failure(HttpError(400, ReportNameMissing)), [];
    }
    assert ReportName(payload) == Some(reportName);

    if env.templateFailure.Some? {
      return Failure(Unhandled(env.templateFailure.value)), [DownloadTemplate];
    }
    var uploaded := [DownloadTemplate, Upload(workspaceId, reportName)];
    if !(env.uploadStatus in {200, 201, 202}) {
      return Failure(HttpError(env.uploadStatus, env.uploadBody)), uploaded;
    }

    var later;
    resp, later := SyncAfterImport(workspaceId, reportName, containerName, folderPath, env);
    calls := uploaded + later;
  }
}
