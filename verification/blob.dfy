/** `blob.py`: reading the table files of one blob folder. The storage
    service and the CSV/Excel parsers are inputs (`Storage`); what is
    modelled is how the folder becomes a listing prefix, which blobs are
    kept, how each becomes a table name, and the ordered result. */
module Blob {
  import opened Wrappers
  import opened Text
  import opened Frames

  /** The parser a blob goes to: `read_csv` or `read_excel`. */
  datatype FileKind = Csv | Excel

  /** The blob container client, reduced to what the code asks of it.
      `names(c)` lists every blob of container `c` in listing order, or
      fails with the exception text when the client cannot be built or the
      container cannot be listed (a missing container, an unreachable
      account);
      `read(c, name, kind)` downloads blob `name`, parses it with the
      parser `kind` and cleans its cells, or fails with the exception text. */
  datatype Storage = Storage(
    names: string -> Result<seq<string>, string>,
    read: (string, string, FileKind) -> Result<Table, string>)

  /** A `(table_name, df)` pair of the result. */
  type NamedTable = (string, Table)

  /** The elements of `s` that satisfy `keep`, in their order in `s`. */
  function Filter(s: seq<string>, keep: string -> bool): (r: seq<string>)
    ensures |r| <= |s|
  {
    if s == [] then []
    else Filter(s[..|s| - 1], keep) + (if keep(s[|s| - 1]) then [s[|s| - 1]] else [])
  }

  /** Exactly the elements satisfying `keep` survive the filter. */
  lemma {:induction false} FilterMembers(s: seq<string>, keep: string -> bool)
    ensures forall x :: x in Filter(s, keep) <==> x in s && keep(x)
  {
    if s != [] {
      var init, last := s[..|s| - 1], s[|s| - 1];
      assert s == init + [last];
      FilterMembers(init, keep);
    }
  }

  /** Nothing survives a filter that keeps no element. */
  lemma {:induction false} FilterNone(s: seq<string>, keep: string -> bool)
    requires forall i :: 0 <= i < |s| ==> !keep(s[i])
    ensures Filter(s, keep) == []
  {
    if s != [] {
      FilterNone(s[..|s| - 1], keep);
    }
  }

  /** Filtering a concatenation filters each part: order is kept. */
  lemma {:induction false} FilterAppend(s: seq<string>, t: seq<string>, keep: string -> bool)
    ensures Filter(s + t, keep) == Filter(s, keep) + Filter(t, keep)
  {
    if t == [] {
      assert s + t == s;
    } else {
      var init, last := t[..|t| - 1], t[|t| - 1];
      assert (s + t)[..|s + t| - 1] == s + init;
      assert (s + t)[|s + t| - 1] == last;
      FilterAppend(s, init, keep);
    }
  }

  /** The listing prefix of blob.py:21: the folder path with a `/` added
      when it does not already end in one. */
  function ListingPrefix(folderPath: string): (p: string)
    ensures EndsWith(p, "/")
    ensures EndsWith(folderPath, "/") ==> p == folderPath
    ensures !EndsWith(folderPath, "/") ==> p == folderPath + "/"
  {
    if EndsWith(folderPath, "/") then folderPath else folderPath + "/"
  }

  lemma ListingPrefixIdempotent(folderPath: string)
    ensures ListingPrefix(ListingPrefix(folderPath)) == ListingPrefix(folderPath)
  {
  }

  /** `list_blobs(name_starts_with=prefix)`: the container's blobs under the prefix. */
  function ListBlobs(names: seq<string>, prefix: string): seq<string> {
    Filter(names, x => StartsWith(x, prefix))
  }

  lemma ListBlobsMembers(names: seq<string>, prefix: string)
    ensures forall x :: x in ListBlobs(names, prefix) <==> x in names && StartsWith(x, prefix)
  {
    FilterMembers(names, x => StartsWith(x, prefix));
  }

  /** The extension test of blob.py:26 (case-sensitive). */
  predicate IsTableFile(name: string) {
    EndsWith(name, ".csv") || EndsWith(name, ".xlsx") || EndsWith(name, ".xls")
  }

  /** The blobs that become tables, in listing order. */
  function Selected(listing: seq<string>): seq<string> {
    Filter(listing, IsTableFile)
  }

  lemma SelectedMembers(listing: seq<string>)
    ensures forall x :: x in Selected(listing) <==> x in listing && IsTableFile(x)
  {
    FilterMembers(listing, IsTableFile);
  }

  /** The parser choice of blob.py:34-37. */
  function KindOf(name: string): FileKind {
    if EndsWith(name, ".csv") then Csv else Excel
  }

  lemma KindOfTableFile(name: string)
    requires IsTableFile(name)
    ensures KindOf(name) == Csv <==> EndsWith(name, ".csv")
    ensures KindOf(name) == Excel <==> EndsWith(name, ".xlsx") || EndsWith(name, ".xls")
  {
    if EndsWith(name, ".xlsx") || EndsWith(name, ".xls") {
      assert name[|name| - 1] != 'v';
      assert !EndsWith(name, ".csv");
    }
  }

  /** The table name of blob.py:31-32: the last path segment with its final
      extension removed. */
  function TableName(name: string): (r: string)
    ensures '/' !in r
  {
    var fileName := AfterLast(name, '/');
    var r := BeforeLast(fileName, '.');
    assert forall i :: 0 <= i < |r| ==> r[i] == fileName[i];
    r
  }

  /** Building a blob name from a folder, a stem and one extension and then
      deriving its table name gives the stem back; the stem may itself hold
      dots, and nothing else about it (spaces, case) is changed. */
  lemma TableNameOfPath(dir: string, stem: string, ext: string)
    requires dir == "" || EndsWith(dir, "/")
    requires '/' !in stem && '/' !in ext && '.' !in ext
    ensures TableName(dir + stem + "." + ext) == stem
  {
    var file := stem + "." + ext;
    assert file == stem + ['.'] + ext;
    assert '/' !in file by {
      assert forall i :: 0 <= i < |file| ==> file[i] == '.' || file[i] in stem || file[i] in ext;
    }
    if dir == "" {
      assert dir + stem + "." + ext == file;
      AfterLastOfFree(file, '/');
    } else {
      var d := dir[..|dir| - 1];
      assert dir == d + ['/'];
      assert dir + stem + "." + ext == d + ['/'] + file;
      AfterLastOfSeparated(d, '/', file);
    }
    AfterLastOfSeparated(stem, '.', ext);
  }

  /** A file name without a dot is its own table name. */
  lemma TableNameWithoutDot(dir: string, stem: string)
    requires dir == "" || EndsWith(dir, "/")
    requires '/' !in stem && '.' !in stem
    ensures TableName(dir + stem) == stem
  {
    if dir == "" {
      assert dir + stem == stem;
      AfterLastOfFree(stem, '/');
    } else {
      var d := dir[..|dir| - 1];
      assert dir == d + ['/'];
      assert dir + stem == d + ['/'] + stem;
      AfterLastOfSeparated(d, '/', stem);
    }
    AfterLastOfFree(stem, '.');
  }

  lemma SlashFreeJoin(a: string, b: string)
    requires '/' !in a && '/' !in b
    ensures '/' !in a + "." + b
  {
    var j := a + "." + b;
    assert forall i :: 0 <= i < |j| ==> j[i] == '.' || j[i] in a || j[i] in b;
  }

  /** Only the final extension goes: `dir/a.b.csv` gives `a.b`. */
  lemma OnlyLastExtensionStripped(dir: string, a: string, b: string, ext: string)
    requires dir == "" || EndsWith(dir, "/")
    requires '/' !in a && '/' !in b && '/' !in ext && '.' !in ext
    ensures TableName(dir + a + "." + b + "." + ext) == a + "." + b
  {
    assert dir + a + "." + b + "." + ext == dir + (a + "." + b) + "." + ext;
    SlashFreeJoin(a, b);
    TableNameOfPath(dir, a + "." + b, ext);
  }

  /** One selected blob read into its `(table_name, df)` entry, or the
      error raised while downloading or parsing it. */
  function ReadEntry(store: Storage, container: string, name: string): Result<NamedTable, string> {
    match store.read(container, name, KindOf(name))
    case Failure(e) => Failure(e)
    case Success(t) => Success((TableName(name), t))
  }

  function Reader(store: Storage, container: string): string -> Result<NamedTable, string> {
    name => ReadEntry(store, container, name)
  }

  /** What the loop of blob.py:24-43 makes of the selected blobs: their
      entries in order, or the first error. */
  function Collect(names: seq<string>, read: string -> Result<NamedTable, string>): Result<seq<NamedTable>, string> {
    if names == [] then Success([])
    else
      match Collect(names[..|names| - 1], read)
      case Failure(e) => Failure(e)
      case Success(tables) =>
        match read(names[|names| - 1])
        case Failure(e) => Failure(e)
        case Success(t) => Success(tables + [t])
  }

  /** The whole of `get_dataframes_from_blob` as a value: a listing that
      raises ends it before any blob is read. */
  function DataframesFromBlob(store: Storage, container: string, folderPath: string): Result<seq<NamedTable>, string> {
    match store.names(container)
    case Failure(e) => Failure(e)
    case Success(all) => Collect(Selected(ListBlobs(all, ListingPrefix(folderPath))), Reader(store, container))
  }

  /** A container that cannot be listed gives the listing's error, whatever
      the blobs would have held. */
  lemma ListingFailurePropagates(store: Storage, container: string, folderPath: string)
    requires store.names(container).Failure?
    ensures DataframesFromBlob(store, container, folderPath) == Failure(store.names(container).error)
  {
  }

  /** Reading succeeds exactly when every selected blob reads. */
  lemma {:induction false} CollectSucceeds(names: seq<string>, read: string -> Result<NamedTable, string>)
    ensures Collect(names, read).Success? <==> forall i :: 0 <= i < |names| ==> read(names[i]).Success?
  {
    if names != [] {
      var init := names[..|names| - 1];
      CollectSucceeds(init, read);
      assert forall i :: 0 <= i < |init| ==> init[i] == names[i];
    }
  }

  /** A successful read has one entry per selected blob, in order. */
  lemma {:induction false} CollectSuccess(names: seq<string>, read: string -> Result<NamedTable, string>)
    requires Collect(names, read).Success?
    ensures |Collect(names, read).value| == |names|
    ensures forall i :: 0 <= i < |names| ==> read(names[i]).Success? && Collect(names, read).value[i] == read(names[i]).value
  {
    if names != [] {
      var init := names[..|names| - 1];
      CollectSuccess(init, read);
      assert forall i :: 0 <= i < |init| ==> init[i] == names[i];
    }
  }

  /** The first blob that fails to read decides the error. */
  lemma {:induction false} CollectFirstFailure(names: seq<string>, read: string -> Result<NamedTable, string>, k: nat)
    requires k < |names| && read(names[k]).Failure?
    requires forall j :: 0 <= j < k ==> read(names[j]).Success?
    ensures Collect(names, read) == Failure(read(names[k]).error)
  {
    var init := names[..|names| - 1];
    if k == |names| - 1 {
      CollectSucceeds(init, read);
    } else {
      CollectFirstFailure(init, read, k);
    }
  }

  /** Once reading has failed, later blobs do not change the outcome. */
  lemma {:induction false} CollectAfterFailure(names: seq<string>, more: seq<string>, read: string -> Result<NamedTable, string>)
    requires Collect(names, read).Failure?
    ensures Collect(names + more, read) == Collect(names, read)
  {
    if more == [] {
      assert names + more == names;
    } else {
      var all := names + more;
      assert all[..|all| - 1] == names + more[..|more| - 1];
      CollectAfterFailure(names, more[..|more| - 1], read);
    }
  }

  /** One more name extends a successful result by its entry. */
  lemma CollectAppend(names: seq<string>, name: string, read: string -> Result<NamedTable, string>)
    requires Collect(names, read).Success?
    ensures Collect(names + [name], read) ==
            match read(name)
            case Failure(e) => Failure(e)
            case Success(t) => Success(Collect(names, read).value + [t])
  {
    var all := names + [name];
    assert all[..|all| - 1] == names;
  }

  /** Each entry of a successful result is named by `TableName` and holds
      the parse of its blob with the parser its extension picks. */
  lemma EntriesOfSelectedBlobs(store: Storage, container: string, folderPath: string)
    requires DataframesFromBlob(store, container, folderPath).Success?
    ensures store.names(container).Success?
    ensures var selected := Selected(ListBlobs(store.names(container).value, ListingPrefix(folderPath)));
            var tables := DataframesFromBlob(store, container, folderPath).value;
            && |tables| == |selected|
            && forall i :: 0 <= i < |tables| ==>
                 && tables[i].0 == TableName(selected[i])
                 && store.read(container, selected[i], KindOf(selected[i])) == Success(tables[i].1)
  {
    var selected := Selected(ListBlobs(store.names(container).value, ListingPrefix(folderPath)));
    CollectSuccess(selected, Reader(store, container));
  }

  /** A folder with no CSV or Excel blob under its prefix gives an empty
      list, not an error, whatever the rest of the container holds. */
  lemma NoTableFilesGiveEmptyResult(store: Storage, container: string, folderPath: string)
    requires store.names(container).Success?
    requires forall x :: x in ListBlobs(store.names(container).value, ListingPrefix(folderPath)) ==> !IsTableFile(x)
    ensures DataframesFromBlob(store, container, folderPath) == Success([])
  {
    var listing := ListBlobs(store.names(container).value, ListingPrefix(folderPath));
    assert forall i :: 0 <= i < |listing| ==> listing[i] in listing;
    FilterNone(listing, IsTableFile);
  }

  /** One more listed blob adds at most its own name to the selection. */
  lemma SelectedExtend(blobs: seq<string>, i: nat)
    requires i < |blobs|
    ensures Selected(blobs[..i + 1]) == Selected(blobs[..i]) + (if IsTableFile(blobs[i]) then [blobs[i]] else [])
  {
    assert blobs[..i + 1] == blobs[..i] + [blobs[i]];
    FilterAppend(blobs[..i], [blobs[i]], IsTableFile);
  }

  /** A read failure at listing position `i` is the outcome of the whole listing. */
  lemma FailureIsFinal(blobs: seq<string>, i: nat, read: string -> Result<NamedTable, string>)
    requires i < |blobs|
    requires Collect(Selected(blobs[..i + 1]), read).Failure?
    ensures Collect(Selected(blobs), read) == Collect(Selected(blobs[..i + 1]), read)
  {
    CollectAfterFailure(Selected(blobs[..i + 1]), Selected(blobs[i + 1..]), read);
    FilterAppend(blobs[..i + 1], blobs[i + 1..], IsTableFile);
    assert blobs[..i + 1] + blobs[i + 1..] == blobs;
  }

  /** A kept blob extends the result by its entry or ends it with its error. */
  lemma KeepStep(blobs: seq<string>, i: nat, read: string -> Result<NamedTable, string>,
                 before: seq<NamedTable>, entry: Result<NamedTable, string>)
    requires i < |blobs| && IsTableFile(blobs[i]) && read(blobs[i]) == entry
    requires Collect(Selected(blobs[..i]), read) == Success(before)
    ensures entry.Success? ==> Collect(Selected(blobs[..i + 1]), read) == Success(before + [entry.value])
    ensures entry.Failure? ==> Collect(Selected(blobs), read) == Failure(entry.error)
  {
    SelectedExtend(blobs, i);
    CollectAppend(Selected(blobs[..i]), blobs[i], read);
    if entry.Failure? {
      FailureIsFinal(blobs, i, read);
    }
  }

  /** A skipped blob leaves the result as it is. */
  lemma SkipStep(blobs: seq<string>, i: nat, read: string -> Result<NamedTable, string>)
    requires i < |blobs| && !IsTableFile(blobs[i])
    ensures Collect(Selected(blobs[..i + 1]), read) == Collect(Selected(blobs[..i]), read)
  {
    SelectedExtend(blobs, i);
    assert Selected(blobs[..i]) + [] == Selected(blobs[..i]);
  }

  /** The body of the loop of blob.py:27-41 for one kept blob: download,
      table name, parser choice, parse. */
  method ReadBlob(store: Storage, containerName: string, name: string) returns (r: Result<NamedTable, string>)
    ensures r == ReadEntry(store, containerName, name)
  {
    var fileName := AfterLast(name, '/');
    var tableName := BeforeLast(fileName, '.');
    var kind := if EndsWith(name, ".csv") then Csv else Excel;
    var df := store.read(containerName, name, kind);
    if df.Failure? {
      return Failure(df.error);
    }
    r := Success((tableName, df.value));
  }

  /** `get_dataframes_from_blob` (blob.py:13-45). */
  method GetDataframesFromBlob(store: Storage, containerName: string, folderPath: string)
    returns (r: Result<seq<NamedTable>, string>)
    ensures r == DataframesFromBlob(store, containerName, folderPath)
  {
    var prefix := if EndsWith(folderPath, "/") then folderPath else folderPath + "/";
    var listing := store.names(containerName);
    if listing.Failure? {
      return Failure(listing.error);
    }
    var blobs := ListBlobs(listing.value, prefix);
    ghost var read := Reader(store, containerName);
    var dataframes: seq<NamedTable> := [];
    var i := 0;
    while i < |blobs|
      invariant 0 <= i <= |blobs|
      invariant Collect(Selected(blobs[..i]), read) == Success(dataframes)
    {
      var name := blobs[i];
      if IsTableFile(name) {
        var entry := ReadBlob(store, containerName, name);
        KeepStep(blobs, i, read, dataframes, entry);
        if entry.Failure? {
          return Failure(entry.error);
        }
        dataframes := dataframes + [entry.value];
      } else {
        SkipStep(blobs, i, read);
      }
      i := i + 1;
    }
    assert blobs[..i] == blobs;
    r := Success(dataframes);
  }
}
