# Blob-to-Power BI sync: a Dafny model

This project models the logic inside the backend that moves CSV and Excel
files from an Azure Blob Storage folder into Power BI datasets. It covers
three source files:

- `blob.py`: `get_dataframes_from_blob`. The folder path becomes a listing
  prefix that ends in `/`. Only blobs ending in `.csv`, `.xlsx` or `.xls` are
  kept. Each kept blob is named by its last path segment without its final
  extension, and goes to the CSV or the Excel parser. The result lists one
  `(table_name, df)` pair per kept blob, in listing order.
- `auto_upload.py`: the `/workspaces/{id}/auto-upload` handler. It checks the
  session token (401) and the `report_name` field (400). It downloads the
  template, imports it, and rejects an import status outside 200/201/202. It
  polls the dataset list up to ten times for a case-insensitive name match
  (404 when none is found). It then reads the blob folder, clears each
  table, and pushes the table's rows in chunks of at most 10,000.
- `powerbi_folder_migration.py`: `get_user_token`, the push-dataset payload
  of `create_push_dataset`, the single rows request of `push_rows`, and
  `folder_migrate`. That handler runs read → create → push → clone and turns
  every exception into status 500, including the 401 of `get_user_token`.

Everything outside the process is an input. Blob storage is `Blob.Storage`:
a listing per container, which may fail, and a read-and-parse function. The auto-upload
responses are `AutoUpload.Environment`: template download, import status and
body, and the ten dataset listings. The folder-migration requests are
`FolderMigration.Vendor`: each request's answer is a function of the request
actually sent. Each request a handler makes is recorded in order
(`AutoUpload.Call`, `FolderMigration.Step`). That is how the model states
that a check happens "before any request".

Modules: `Wrappers` (Option, Result), `Text` (the Python string operations
used: `endswith`, `split('/')[-1]`, `rsplit('.', 1)[0]`, `lower()`,
`str(n)`), `Frames` (a parsed table as columns and rows), `Config`
(`TABLEAU_FOLDER`), `Http` (the token test and handler errors), `Blob`,
`AutoUpload` and `FolderMigration`.

A few facts about the code that the model keeps:
- table names keep their spaces: blob.py:31-32 does no space-to-underscore
  replacement;
- a folder with no table files gives `[]`, not an error (blob.py:24-45);
- the auto-upload chunk size is 10,000 (auto_upload.py:71);
- the folder migration pushes all rows in one request
  (powerbi_folder_migration.py:131-137).

## Model

| member | source | states |
|---|---|---|
| `Text.AfterLast` | blob.py:31 | `split('/')[-1]` yields a suffix of the name that contains no `/` |
| `Text.BeforeLast` | blob.py:32 | `rsplit('.', 1)[0]` yields a prefix; if `.` occurs, the name is that prefix, the last `.` and a dot-free rest; otherwise the whole name |
| `Text.LastIndexOf` | blob.py:31-32 | the index found holds the character and no later position does; -1 exactly when the character is absent |
| `Text.LowerChar` | auto_upload.py:51 | `lower()` on one character: an upper-case ASCII letter becomes the letter 32 code points above it, in `a`..`z`; every other character is unchanged |
| `Text.EqualIgnoringCaseIsSameLetters` | auto_upload.py:51 | two names are equal after `lower()` iff they have the same length and each pair of characters is equal or an upper-case letter and its lower-case partner |
| `Text.DecimalRoundTrip` | powerbi_folder_migration.py:220 | `str(n)` denotes n: reading its digits back gives n |
| `Blob.ListingPrefix` | blob.py:21 | the prefix always ends in `/`; a path already ending in `/` is unchanged, any other gets exactly one `/` appended |
| `Blob.ListingPrefixIdempotent` | blob.py:21 | normalising the prefix twice equals normalising once |
| `Blob.ListBlobsMembers` | blob.py:22 | the listing holds exactly the container's blobs that start with the prefix |
| `Blob.SelectedMembers` | blob.py:26 | a blob is selected iff it is listed and its name ends, case-sensitively, in `.csv`, `.xlsx` or `.xls` |
| `Blob.FilterAppend` | blob.py:24-43 | selection distributes over concatenation, so listing order is kept |
| `Blob.KindOfTableFile` | blob.py:34-37 | for a selected blob: CSV parser iff the name ends in `.csv`, Excel parser iff it ends in `.xlsx` or `.xls` |
| `Blob.TableName` | blob.py:31-32 | the table name never contains `/` |
| `Blob.TableNameOfPath` | blob.py:31-32 | for folder + stem + `.` + extension, the table name is the stem unchanged (dots, spaces, case kept) |
| `Blob.TableNameWithoutDot` | blob.py:32 | a last segment without a dot is its own table name |
| `Blob.OnlyLastExtensionStripped` | blob.py:32 | only the final extension goes: `dir/a.b.csv` gives `a.b` |
| `Blob.CollectSucceeds` | blob.py:24-45 | reading succeeds iff every selected blob downloads and parses |
| `Blob.CollectSuccess` | blob.py:24-45 | a successful result has one entry per selected blob, in order, each that blob's entry |
| `Blob.CollectFirstFailure` | blob.py:27-37 | the first blob that fails to read decides the propagated error |
| `Blob.CollectAfterFailure` | blob.py:25-43 | after a failure, later blobs do not change the outcome |
| `Blob.EntriesOfSelectedBlobs` | blob.py:24-45 | entry i is named `TableName` of the i-th selected blob and holds its parse with the parser its extension picks |
| `Blob.NoTableFilesGiveEmptyResult` | blob.py:22-45 | with no CSV/Excel blob under the folder's prefix, the result is an empty list and no error, whatever else the container holds |
| `Blob.ReadBlob` | blob.py:27-41 | the loop body for one kept blob equals `ReadEntry`: `(TableName(name), df)` parsed with the parser its extension picks, or the read error |
| `Blob.GetDataframesFromBlob` | blob.py:13-45 | the loop's result equals the specification `DataframesFromBlob`: the listing's error if the container cannot be listed, otherwise the selection-and-collection of its blobs |
| `Blob.ListingFailurePropagates` | blob.py:17-25 | a container that cannot be listed gives the listing's error, before any blob is read |
| `AutoUpload.ReportName` | auto_upload.py:21-26 | the report name counts as present iff the field exists and is non-empty |
| `AutoUpload.FirstMatch` | auto_upload.py:51 | the index chosen is the first dataset whose name equals the report name ignoring case; none iff no dataset matches |
| `AutoUpload.PollFrom` | auto_upload.py:45-54 | at most 10 list requests; polling stops at the first ok response with a match and returns that match; not-ok responses use up an attempt; with no match all 10 are spent |
| `AutoUpload.DatasetId` | auto_upload.py:53-57 | polling leads on only when a dataset was found and its id is non-empty, and the id used afterwards is that dataset's `id` |
| `AutoUpload.PollForDataset` | auto_upload.py:45-54 | the loop's attempt count and found dataset equal `PollFrom` from attempt 0 |
| `AutoUpload.ListCalls` | auto_upload.py:48 | one list request per attempt |
| `AutoUpload.ChunksFromBounded` | auto_upload.py:71-72 | every chunk holds between 1 and 10,000 rows |
| `AutoUpload.ChunksFromCount` | auto_upload.py:71 | from offset k there are ceil((n-k)/10000) chunks |
| `AutoUpload.ChunksFromConcat` | auto_upload.py:71-72 | the chunks from offset k concatenate to the rows from k |
| `AutoUpload.ChunksPartition` | auto_upload.py:70-73 | chunks have 1 to 10,000 rows each; there are ceil(n/10000), none for an empty table; concatenated in order they are the row list |
| `AutoUpload.PostCallsShape` | auto_upload.py:71-73 | one push request per chunk, in chunk order, to that table |
| `AutoUpload.PushTableRows` | auto_upload.py:70-73 | the chunk loop sends exactly the push requests of the chunk partition |
| `AutoUpload.TableNamesInOrder` | auto_upload.py:61-75 | `synced_tables` names every table once, in order |
| `AutoUpload.SyncTables` | auto_upload.py:61-75 | per table, a delete then its chunk pushes; every table is synced, since no response is checked |
| `AutoUpload.NotFoundSendsOnlyListRequests` | auto_upload.py:45-57 | when no poll finds a dataset with an id, the answer is 404 and the only requests after the import are 1 to 10 list requests: no blob read, delete or push |
| `AutoUpload.UnlistableContainerStopsSync` | auto_upload.py:56-60 | a `container_name` that cannot be listed, once the dataset is found, ends the request with the listing's exception after the list requests and the blob read: no delete and no push |
| `AutoUpload.SyncedTablesFollowListing` | auto_upload.py:60-75 | when the dataset is found and every blob reads, the request succeeds and `synced_tables` is the table name of each selected blob, in listing order |
| `AutoUpload.SyncAfterImport` | auto_upload.py:44-81 | after an accepted import: 404, the blob error, or the summary, with the matching request sequence |
| `AutoUpload.HandleAutoUpload` | auto_upload.py:11-81 | no token: 401 with no request; no report name: 400 with no request; rejected import: its status and body after only download and upload; otherwise poll, read and sync as `AfterImport` |
| `FolderMigration.GetUserToken` | powerbi_folder_migration.py:25-29 | the token is returned iff present and non-empty; otherwise 401 "Not logged in" |
| `FolderMigration.SchemaColumns` | powerbi_folder_migration.py:100 | one column per dataframe column, same names in the same order, each typed "string" |
| `FolderMigration.PushDatasetPayload` | powerbi_folder_migration.py:99-111 | payload named `DATASET_NAME`, mode "Push", exactly one table named `TABLE_NAME` with the dataframe's columns, all "string" |
| `FolderMigration.PushRowsRequest` | powerbi_folder_migration.py:130-140 | the one rows request of `push_rows` goes to `TABLE_NAME` and carries every row of the dataframe, unbatched |
| `FolderMigration.ExceptionText` | powerbi_folder_migration.py:218-220 | an `HTTPException` prints as status, ": ", detail; any other exception as its message |
| `FolderMigration.FolderMigrate` | powerbi_folder_migration.py:180-220 | every failure is 500; the steps run are a prefix of read, create, push, clone; success runs all four and echoes the workspace and `TABLEAU_FOLDER` |
| `FolderMigration.MissingTokenIs500` | powerbi_folder_migration.py:182-186 | without a token the answer is 500 "401: Not logged in" and no step runs |
| `FolderMigration.ReadFailureStopsAll` | powerbi_folder_migration.py:192 | a failed read gives 500 with its text and no vendor request |
| `FolderMigration.CreateFailureStopsPush` | powerbi_folder_migration.py:196 | a rejected dataset creation gives 500; no push and no clone |
| `FolderMigration.PushFailureStopsClone` | powerbi_folder_migration.py:200 | a rejected rows request gives 500; no clone |
| `FolderMigration.CloneFailureIs500` | powerbi_folder_migration.py:204-220 | a failing clone-and-rebind gives 500 with its text, after all four steps were sent |
| `FolderMigration.SuccessfulMigration` | powerbi_folder_migration.py:186-216 | on success: one create with the schema payload, one rows request with all rows, one clone; the response echoes workspace, dataset id, report id, report name and "raju" |

## Left out

- HTTP transport, URLs, bearer headers and JSON encoding are not modelled. Each request appears only as a trace entry, and its answer is an input.
- `time.sleep(2)` between polls and all `print` logging are left out. Only the attempt count matters.
- `main.py` (app wiring, middleware, routers) and the environment loading of `config.py` are left out. Only `TABLEAU_FOLDER` is carried, as `Config.TableauFolder`.
- `download_empty_pbix`, `read_folder_data` and `clone_and_rebind` are left out. They are calls into storage and the vendor API, so only their results are inputs. That includes the unchecked rebind request.
- pandas CSV/Excel parsing is an input. A table is only its column names and rows.
- The NaN/±Inf replacement of blob.py:40-41 and the `astype(str)` of powerbi_folder_migration.py:131 are left out. They are floating-point and pandas semantics, so cells stay abstract (`Frames.Cell`) and rows are pushed as given.
- `Text.LowerChar`: models ASCII case mapping only. Python's `str.lower` also folds non-ASCII letters.
- Request payloads are string-to-string maps. JSON values of other types (a numeric or null `report_name`) are not modelled.
- The names `DATASET_NAME`, `TABLE_NAME`, `TEMPLATE_WORKSPACE_ID`, `TEMPLATE_REPORT_ID` and `BLOB_CONTAINER` are imported from a config that does not define them. The two names the modelled code uses are a parameter (`FolderMigration.Names`).
- An exception raised outside `folder_migrate`'s `try` surfaces as `Http.Unhandled`. In auto-upload the model raises one only for a failed template download, a container that cannot be listed, or a failed blob read. The framework would answer with a generic 500.
- AutoUpload.HandleAutoUpload: a connection error or timeout of the import POST (auto_upload.py:40) is not modelled. The import answer is always a status and a body.
- AutoUpload.PollFrom: a dataset-list GET (auto_upload.py:48) that raises, or an ok response whose body is not JSON (auto_upload.py:50), would end the request with a 500. The model has no such case: a `Listing` is only ok or not ok, and a not-ok one uses up an attempt.
- Network errors raised by the delete and push requests in the per-table loop are not modelled. Their statuses are ignored, as in the source.
- A dataset entry without a `name` or `id` key (a `KeyError`) is not modelled. Datasets are records with both.
- `FolderMigration.ExceptionText`: the "status: detail" text of an `HTTPException` is the web framework's rendering. That framework is not part of this model.
- The blob listing's prefix filter (`Blob.ListBlobs`) stands for the storage service. It keeps the container's own listing order.
- Blob.GetDataframesFromBlob: a listing that fails is modelled as failing before any blob is read. The real pager can also fail on a later page, after some blobs were read. The outcome is the same error unless an earlier blob read fails first.
