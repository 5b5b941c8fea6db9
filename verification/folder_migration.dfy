/** `powerbi_folder_migration.py`: the folder-migrate endpoint. The blob
    read and the three vendor requests are inputs (`Vendor`); what is
    modelled is the token check, the push-dataset payload, the single rows
    request, the order of the steps and the mapping of every failure to 500. */
module FolderMigration {
  import opened Wrappers
  import opened Text
  import opened Frames
  import opened Http
  import Config

  /** A column entry of the push-dataset schema. */
  datatype Column = Column(name: string, dataType: string)

  datatype TableSchema = TableSchema(name: string, columns: seq<Column>)

  /** The body of the dataset-creation request. */
  datatype DatasetPayload = DatasetPayload(name: string, defaultMode: string, tables: seq<TableSchema>)

  /** The body of the rows request, addressed to one table. */
  datatype RowsRequest = RowsRequest(table: string, rows: seq<Row>)

  /** `DATASET_NAME` and `TABLE_NAME`, configuration values of the deployment. */
  datatype Names = Names(datasetName: string, tableName: string)

  /** The outside world of the endpoint. `readFolderData` is the parsed
      `Extract_Extract.csv` or the read error; the three functions answer the
      dataset-creation request (with the new dataset id), the rows request
      (with an error, if any) and the clone-and-rebind requests (with the new
      report id), each from the request actually sent. */
  datatype Vendor = Vendor(
    readFolderData: Result<Table, string>,
    createDataset: (string, DatasetPayload) -> Result<string, string>,
    pushRows: (string, string, RowsRequest) -> Option<string>,
    cloneAndRebind: (string, string, Option<string>) -> Result<string, string>)

  /** The steps of the migration, as they are carried out. */
  datatype Step =
    | ReadFolderData
    | CreateDataset(workspaceId: string, payload: DatasetPayload)
    | PushRows(workspaceId: string, datasetId: string, request: RowsRequest)
    | CloneReport(workspaceId: string, datasetId: string, reportName: Option<string>)

  /** The success body of the endpoint. */
  datatype Migrated = Migrated(workspaceId: string, datasetId: string, reportId: string,
                               reportName: Option<string>, folder: string)

  datatype Outcome = Outcome(response: Result<Migrated, Error>, steps: seq<Step>)

  /** The position of a step in the fixed order read, create, push, clone. */
  function StepIndex(s: Step): nat {
    match s
    case ReadFolderData => 0
    case CreateDataset(_, _) => 1
    case PushRows(_, _, _) => 2
    case CloneReport(_, _, _) => 3
  }

  /** `get_user_token` (powerbi_folder_migration.py:25-29). */
  function GetUserToken(session: Option<string>): (r: Result<string, Error>)
    ensures r.Success? <==> HasToken(session)
    ensures r.Success? ==> r.value == session.value
    ensures r.Failure? ==> r.error == HttpError(401, NotLoggedIn)
  {
    if session.None? || session.value == "" then Failure(HttpError(401, NotLoggedIn)) else Success(session.value)
  }

  function ColumnNames(columns: seq<Column>): (r: seq<string>)
    ensures |r| == |columns| && forall i :: 0 <= i < |columns| ==> r[i] == columns[i].name
  {
    seq(|columns|, i requires 0 <= i < |columns| => columns[i].name)
  }

  /** The column list of powerbi_folder_migration.py:100: the dataframe's
      columns, in order, each typed `string`. */
  function SchemaColumns(columns: seq<string>): (r: seq<Column>)
    ensures ColumnNames(r) == columns
    ensures forall c :: c in r ==> c.dataType == "string"
  {
    seq(|columns|, i requires 0 <= i < |columns| => Column(columns[i], "string"))
  }

  /** The payload of `create_push_dataset` (powerbi_folder_migration.py:102-111). */
  function PushDatasetPayload(names: Names, df: Table): (p: DatasetPayload)
    ensures p.name == names.datasetName && p.defaultMode == "Push"
    ensures |p.tables| == 1 && p.tables[0].name == names.tableName
    ensures ColumnNames(p.tables[0].columns) == df.columns
    ensures forall c :: c in p.tables[0].columns ==> c.dataType == "string"
  {
    DatasetPayload(names.datasetName, "Push", [TableSchema(names.tableName, SchemaColumns(df.columns))])
  }

  /** The one request of `push_rows` (powerbi_folder_migration.py:130-140):
      every row of the table, unbatched. */
  function PushRowsRequest(names: Names, df: Table): (r: RowsRequest)
    ensures r.table == names.tableName && r.rows == df.rows
  {
    RowsRequest(names.tableName, df.rows)
  }

  /** `str(e)` for the exceptions `folder_migrate` catches; an
      `HTTPException` prints as its status, a colon and its detail. */
  function ExceptionText(e: Error): (r: string)
    ensures e.HttpError? && 0 <= e.status ==> r == Decimal(e.status) + ": " + e.detail
    ensures e.Unhandled? ==> r == e.message
  {
    match e
    case HttpError(status, detail) =>
      (if status < 0 then "-" + Decimal(-status) else Decimal(status)) + ": " + detail
    case Unhandled(message) => message
  }

  /** The body of the `try` in `folder_migrate` (powerbi_folder_migration.py:186-216):
      each step runs only when the one before it succeeded. */
  function MigrationSteps(workspaceId: string, session: Option<string>, payload: map<string, string>,
                          names: Names, vendor: Vendor): (Result<Migrated, Error>, seq<Step>)
  {
    match GetUserToken(session)
    case Failure(e) => (Failure(e), [])
    case Success(_) =>
      var reportName := if "report_name" in payload then Some(payload["report_name"]) else None;
      match vendor.readFolderData
      case Failure(e) => (Failure(Unhandled(e)), [ReadFolderData])
      case Success(df) =>
        var dataset := PushDatasetPayload(names, df);
        var created := [ReadFolderData, CreateDataset(workspaceId, dataset)];
        match vendor.createDataset(workspaceId, dataset)
        case Failure(e) => (Failure(Unhandled(e)), created)
        case Success(datasetId) =>
          var rows := PushRowsRequest(names, df);
          var pushed := created + [PushRows(workspaceId, datasetId, rows)];
          match vendor.pushRows(workspaceId, datasetId, rows)
          case Some(e) => (Failure(Unhandled(e)), pushed)
          case None =>
            var cloned := pushed + [CloneReport(workspaceId, datasetId, reportName)];
            match vendor.cloneAndRebind(workspaceId, datasetId, reportName)
            case Failure(e) => (Failure(Unhandled(e)), cloned)
            case Success(reportId) =>
              (Success(Migrated(workspaceId, datasetId, reportId, reportName, Config.TableauFolder)), cloned)
  }

  /** `folder_migrate` (powerbi_folder_migration.py:180-220): whatever fails,
      the answer is 500 with the exception's text; the steps that ran are a
      prefix of read, create, push, clone; and success means all four ran
      and echoes the workspace and the `TABLEAU_FOLDER` setting. */
  function FolderMigrate(workspaceId: string, session: Option<string>, payload: map<string, string>,
                         names: Names, vendor: Vendor): (r: Outcome)
    ensures r.response.Failure? ==> r.response.error.HttpError? && r.response.error.status == 500
    ensures |r.steps| <= 4 && forall i :: 0 <= i < |r.steps| ==> StepIndex(r.steps[i]) == i
    ensures r.response.Success? ==>
              && |r.steps| == 4
              && r.response.value.workspaceId == workspaceId
              && r.response.value.folder == Config.TableauFolder
  {
    var (result, steps) := MigrationSteps(workspaceId, session, payload, names, vendor);
    match result
    case Failure(e) => Outcome(Failure(HttpError(500, ExceptionText(e))), steps)
    case Success(m) => Outcome(Success(m), steps)
  }

  /** The 401 of `get_user_token` is raised inside the `try`, so a request
      without a session token gets 500, before any step. */
  lemma MissingTokenIs500(workspaceId: string, session: Option<string>, payload: map<string, string>,
                          names: Names, vendor: Vendor)
    requires !HasToken(session)
    ensures FolderMigrate(workspaceId, session, payload, names, vendor)
            == Outcome(Failure(HttpError(500, "401: Not logged in")), [])
  {
    assert Decimal(4) == "4" && Decimal(40) == "40" && Decimal(401) == "401";
    assert ExceptionText(HttpError(401, NotLoggedIn)) == "401" + ": " + "Not logged in";
    assert "401" + ": " + "Not logged in" == "401: Not logged in";
    assert GetUserToken(session) == Failure(HttpError(401, NotLoggedIn));
    assert MigrationSteps(workspaceId, session, payload, names, vendor) == (Failure(HttpError(401, NotLoggedIn)), []);
  }

  /** A failing read stops the migration before any vendor request. */
  lemma ReadFailureStopsAll(workspaceId: string, session: Option<string>, payload: map<string, string>,
                            names: Names, vendor: Vendor)
    requires HasToken(session) && vendor.readFolderData.Failure?
    ensures FolderMigrate(workspaceId, session, payload, names, vendor)
            == Outcome(Failure(HttpError(500, vendor.readFolderData.error)), [ReadFolderData])
  {
  }

  /** A rejected dataset creation stops the push and the clone. */
  lemma CreateFailureStopsPush(workspaceId: string, session: Option<string>, payload: map<string, string>,
                               names: Names, vendor: Vendor)
    requires HasToken(session) && vendor.readFolderData.Success?
    requires vendor.createDataset(workspaceId, PushDatasetPayload(names, vendor.readFolderData.value)).Failure?
    ensures var r := FolderMigrate(workspaceId, session, payload, names, vendor);
            && r.response == Failure(HttpError(500, vendor.createDataset(workspaceId, PushDatasetPayload(names, vendor.readFolderData.value)).error))
            && |r.steps| == 2
  {
  }

  /** A rejected rows request stops the clone. */
  lemma PushFailureStopsClone(workspaceId: string, session: Option<string>, payload: map<string, string>,
                              names: Names, vendor: Vendor)
    requires HasToken(session) && vendor.readFolderData.Success?
    requires var id := vendor.createDataset(workspaceId, PushDatasetPayload(names, vendor.readFolderData.value));
             && id.Success?
             && vendor.pushRows(workspaceId, id.value, PushRowsRequest(names, vendor.readFolderData.value)).Some?
    ensures var df := vendor.readFolderData.value;
            var id := vendor.createDataset(workspaceId, PushDatasetPayload(names, df)).value;
            var r := FolderMigrate(workspaceId, session, payload, names, vendor);
            && r.response == Failure(HttpError(500, vendor.pushRows(workspaceId, id, PushRowsRequest(names, df)).value))
            && |r.steps| == 3
  {
  }

  /** A failing clone-and-rebind still answers 500 with its text, after all
      four steps were sent. */
  lemma CloneFailureIs500(workspaceId: string, session: Option<string>, payload: map<string, string>,
                          names: Names, vendor: Vendor)
    requires HasToken(session) && vendor.readFolderData.Success?
    requires var df := vendor.readFolderData.value;
             var id := vendor.createDataset(workspaceId, PushDatasetPayload(names, df));
             var reportName := if "report_name" in payload then Some(payload["report_name"]) else None;
             && id.Success?
             && vendor.pushRows(workspaceId, id.value, PushRowsRequest(names, df)).None?
             && vendor.cloneAndRebind(workspaceId, id.value, reportName).Failure?
    ensures var df := vendor.readFolderData.value;
            var datasetId := vendor.createDataset(workspaceId, PushDatasetPayload(names, df)).value;
            var reportName := if "report_name" in payload then Some(payload["report_name"]) else None;
            var r := FolderMigrate(workspaceId, session, payload, names, vendor);
            && r.response == Failure(HttpError(500, vendor.cloneAndRebind(workspaceId, datasetId, reportName).error))
            && r.steps == [ReadFolderData, CreateDataset(workspaceId, PushDatasetPayload(names, df)),
                           PushRows(workspaceId, datasetId, PushRowsRequest(names, df)),
                           CloneReport(workspaceId, datasetId, reportName)]
  {
  }

  /** When every step succeeds: one dataset with the dataframe's columns,
      one rows request with all its rows, one clone, and the echoed ids. */
  lemma SuccessfulMigration(workspaceId: string, session: Option<string>, payload: map<string, string>,
                            names: Names, vendor: Vendor)
    requires HasToken(session) && vendor.readFolderData.Success?
    requires var df := vendor.readFolderData.value;
             var id := vendor.createDataset(workspaceId, PushDatasetPayload(names, df));
             var reportName := if "report_name" in payload then Some(payload["report_name"]) else None;
             && id.Success?
             && vendor.pushRows(workspaceId, id.value, PushRowsRequest(names, df)).None?
             && vendor.cloneAndRebind(workspaceId, id.value, reportName).Success?
    ensures var df := vendor.readFolderData.value;
            var datasetId := vendor.createDataset(workspaceId, PushDatasetPayload(names, df)).value;
            var reportName := if "report_name" in payload then Some(payload["report_name"]) else None;
            var reportId := vendor.cloneAndRebind(workspaceId, datasetId, reportName).value;
            var r := FolderMigrate(workspaceId, session, payload, names, vendor);
            && r.response == Success(Migrated(workspaceId, datasetId, reportId, reportName, Config.TableauFolder))
            && r.steps == [ReadFolderData, CreateDataset(workspaceId, PushDatasetPayload(names, df)),
                           PushRows(workspaceId, datasetId, RowsRequest(names.tableName, df.rows)),
                           CloneReport(workspaceId, datasetId, reportName)]
  {
  }
}
