/**
 * SimpleStorageAdapter: a hierarchical-filesystem backend over the flat,
 * id-keyed store. Paths are used as job ids; directories do not exist and
 * are emulated by prefix filtering of the full listing. Every client
 * SimpleStorageException is rewrapped into the filesystem library's own
 * error; a TypeError passes through untouched.
 */
module Adapter {
  import opened Wrappers
  import opened Php
  import opened Http
  import opened Exceptions
  import opened DataTransferObjects
  import opened Client

  datatype MetadataType = LastModifiedMeta | FileSizeMeta | VisibilityMeta | MimeTypeMeta

  /** The filesystem library's exceptions, with what each one is built from. */
  datatype FsError =
    | UnableToCheckExistence(location: string, cause: StorageException)
    | UnableToWriteFile(location: string, reason: string, cause: StorageException)
    | UnableToReadFile(location: string, reason: string, cause: StorageException)
    | UnableToDeleteFile(location: string, reason: string, cause: StorageException)
    | UnableToDeleteDirectory(location: string, inner: FsError)
    | UnableToSetVisibility(location: string, reason: string)
    | UnableToRetrieveMetadata(
        location: string, metadata: MetadataType, reason: string, storageCause: Option<StorageException>)
    | UnableToListContents(location: string, deep: bool, cause: StorageException)
    | UnableToCopyFile(source: string, destination: string, inner: FsError)
    | UnableToMoveFile(source: string, destination: string, inner: FsError)

  /** What an adapter operation can raise. */
  datatype AdapterFailure = Fs(error: FsError) | Escaped(t: TypeError)

  /** The filesystem library's FileAttributes: path, size, visibility, last-modified time. */
  datatype FileAttributes = FileAttributes(
    path: string, fileSize: Option<int>, visibility: Option<string>, lastModified: Option<Moment>)

  const NotFoundReason: string := "File not found."
  const VisibilityReason: string := "Visibility not supported."
  const MimeTypeReason: string := "MimeType not supported directly."

  // ---------------------------------------------------------------- single-request operations

  /** `fileExists($path)`: the client's exists() never raises a storage error, so nothing is rewrapped. */
  function FileExistsReply(conn: Connection, path: string, o: Outcome, now: Moment): (r: Result<bool, AdapterFailure>)
    ensures r.Ok? <==> ExistsReply(conn, path, o, now).Ok?
    ensures r.Ok? ==> r.value == ExistsReply(conn, path, o, now).value
    ensures r.Err? ==> r == Err(Escaped(ExistsReply(conn, path, o, now).error))
  {
    match ExistsReply(conn, path, o, now)
    case Ok(b) => Ok(b)
    case Err(t) => Err(Escaped(t))
  }

  /** `write($path, $contents)`: uploadContent with the path as the job id; any 2xx is success. */
  function WriteReply(conn: Connection, path: string, contents: Bytes, o: Outcome): (r: Result<(), AdapterFailure>)
    ensures var u := UploadContentReply(conn, path, contents, o);
      && (r.Ok? <==> u.Ok?)
      && (u.Err? && u.error.Storage? ==> r == Err(Fs(UnableToWriteFile(path, u.error.e.message, u.error.e))))
      && (u.Err? && u.error.Fault? ==> r == Err(Escaped(u.error.t)))
  {
    match UploadContentReply(conn, path, contents, o)
    case Ok(_) => Ok(())
    case Err(Storage(e)) => Err(Fs(UnableToWriteFile(path, e.message, e)))
    case Err(Fault(t)) => Err(Escaped(t))
  }

  /** `read($path)`: download with keep left false; its bytes are returned unchanged. */
  function ReadReply(conn: Connection, path: string, o: Outcome): (r: Result<Bytes, AdapterFailure>)
    ensures var d := DownloadReply(conn, path, o);
      && (r.Ok? <==> d.Ok?)
      && (r.Ok? ==> r.value == d.value)
      && (d.Err? && d.error.Storage? ==> r == Err(Fs(UnableToReadFile(path, d.error.e.message, d.error.e))))
      && (d.Err? && d.error.Fault? ==> r == Err(Escaped(d.error.t)))
  {
    match DownloadReply(conn, path, o)
    case Ok(bytes) => Ok(bytes)
    case Err(Storage(e)) => Err(Fs(UnableToReadFile(path, e.message, e)))
    case Err(Fault(t)) => Err(Escaped(t))
  }

  /** `delete($path)`: a 404 is not swallowed; every client error becomes UnableToDeleteFile. */
  function DeleteFileReply(conn: Connection, path: string, o: Outcome): (r: Result<(), AdapterFailure>)
    ensures r.Ok? <==> DeleteReply(conn, path, o).Ok?
    ensures r.Err? ==> r.error.Fs? && r.error.error.UnableToDeleteFile? && r.error.error.location == path
    ensures r.Err? ==> r.error.error.cause == DeleteReply(conn, path, o).error.e
    ensures r.Err? ==> r.error.error.reason == DeleteReply(conn, path, o).error.e.message
    ensures o.Resp? && o.response.status == 404 ==>
      r == Err(Fs(UnableToDeleteFile(path, NotFound(path).message, NotFound(path))))
  {
    match DeleteReply(conn, path, o)
    case Ok(_) => Ok(())
    case Err(Storage(e)) => Err(Fs(UnableToDeleteFile(path, e.message, e)))
    case Err(Fault(t)) => Err(Escaped(t))
  }

  /** The index of the first listed file whose job id is exactly `path` (the deleted flag is not looked at). */
  function FirstMatch(files: seq<FileInfo>, path: string): (r: Option<nat>)
    ensures r.Some? ==> r.value < |files| && files[r.value].jobId == path
    ensures r.Some? ==> forall k :: 0 <= k < r.value ==> files[k].jobId != path
    ensures r.None? ==> forall k :: 0 <= k < |files| ==> files[k].jobId != path
  {
    if files == [] then None
    else if files[0].jobId == path then Some(0)
    else
      match FirstMatch(files[1..], path)
      case Some(i) => Some(i + 1)
      case None => None
  }

  /** `lastModified($path)`: a linear search of the listing. */
  function LastModifiedReply(conn: Connection, path: string, o: Outcome, now: Moment)
    : (r: Result<FileAttributes, AdapterFailure>)
    ensures var l := ListReply(conn, o, now);
      && (l.Ok? && FirstMatch(l.value, path).Some? ==>
            var f := l.value[FirstMatch(l.value, path).value];
            r == Ok(FileAttributes(path, Some(f.fileSize), None, Some(f.uploadedAt))))
      && (l.Ok? && FirstMatch(l.value, path).None? ==>
            r == Err(Fs(UnableToRetrieveMetadata(path, LastModifiedMeta, NotFoundReason, None))))
      && (l.Err? && l.error.Storage? ==>
            r == Err(Fs(UnableToRetrieveMetadata(path, LastModifiedMeta, l.error.e.message, Some(l.error.e)))))
      && (l.Err? && l.error.Fault? ==> r == Err(Escaped(l.error.t)))
  {
    match ListReply(conn, o, now)
    case Ok(files) =>
      (match FirstMatch(files, path)
       case Some(i) => Ok(FileAttributes(path, Some(files[i].fileSize), None, Some(files[i].uploadedAt)))
       case None => Err(Fs(UnableToRetrieveMetadata(path, LastModifiedMeta, NotFoundReason, None))))
    case Err(Storage(e)) => Err(Fs(UnableToRetrieveMetadata(path, LastModifiedMeta, e.message, Some(e))))
    case Err(Fault(t)) => Err(Escaped(t))
  }

  /** `fileSize($path)`: the same search, reporting only the size. */
  function FileSizeReply(conn: Connection, path: string, o: Outcome, now: Moment)
    : (r: Result<FileAttributes, AdapterFailure>)
    ensures var l := ListReply(conn, o, now);
      && (l.Ok? && FirstMatch(l.value, path).Some? ==>
            r == Ok(FileAttributes(path, Some(l.value[FirstMatch(l.value, path).value].fileSize), None, None)))
      && (l.Ok? && FirstMatch(l.value, path).None? ==>
            r == Err(Fs(UnableToRetrieveMetadata(path, FileSizeMeta, NotFoundReason, None))))
      && (l.Err? && l.error.Storage? ==>
            r == Err(Fs(UnableToRetrieveMetadata(path, FileSizeMeta, l.error.e.message, Some(l.error.e)))))
      && (l.Err? && l.error.Fault? ==> r == Err(Escaped(l.error.t)))
  {
    match ListReply(conn, o, now)
    case Ok(files) =>
      (match FirstMatch(files, path)
       case Some(i) => Ok(FileAttributes(path, Some(files[i].fileSize), None, None))
       case None => Err(Fs(UnableToRetrieveMetadata(path, FileSizeMeta, NotFoundReason, None))))
    case Err(Storage(e)) => Err(Fs(UnableToRetrieveMetadata(path, FileSizeMeta, e.message, Some(e))))
    case Err(Fault(t)) => Err(Escaped(t))
  }

  /** A listed file as the listing yields it. */
  function Attributes(f: FileInfo): FileAttributes {
    FileAttributes(f.jobId, Some(f.fileSize), None, Some(f.uploadedAt))
  }

  /** The generator's filter: an empty prefix keeps everything. */
  predicate Selected(f: FileInfo, prefix: string) {
    prefix == "" || StartsWith(f.jobId, prefix)
  }

  /** What the listContents generator yields for a listing, in listing order. */
  function Listed(files: seq<FileInfo>, prefix: string): (entries: seq<FileAttributes>)
    ensures |entries| <= |files|
    ensures forall k :: 0 <= k < |entries| ==>
      entries[k].visibility.None? && entries[k].fileSize.Some? && entries[k].lastModified.Some?
      && (prefix == "" || StartsWith(entries[k].path, prefix))
  {
    if files == [] then []
    else
      var last := files[|files| - 1];
      Listed(files[..|files| - 1], prefix) + (if Selected(last, prefix) then [Attributes(last)] else [])
  }

  /** The root listing yields one entry per listed file, in order. */
  lemma {:induction false} ListedRoot(files: seq<FileInfo>)
    ensures |Listed(files, "")| == |files|
    ensures forall k :: 0 <= k < |files| ==> Listed(files, "")[k] == Attributes(files[k])
  {
    if files != [] {
      ListedRoot(files[..|files| - 1]);
    }
  }

  /** Listing a concatenation lists each part in turn: the order of the listing is kept. */
  lemma {:induction false} ListedConcat(a: seq<FileInfo>, b: seq<FileInfo>, prefix: string)
    ensures Listed(a + b, prefix) == Listed(a, prefix) + Listed(b, prefix)
  {
    if b == [] {
      assert a + b == a;
    } else {
      var last := b[|b| - 1];
      assert (a + b)[..|a + b| - 1] == a + b[..|b| - 1];
      ListedConcat(a, b[..|b| - 1], prefix);
    }
  }

  /** An entry is listed iff it is the entry of a listed file whose job id has the prefix. */
  lemma {:induction false} ListedMembers(files: seq<FileInfo>, prefix: string, x: FileAttributes)
    ensures x in Listed(files, prefix) <==>
      exists k :: 0 <= k < |files| && Selected(files[k], prefix) && x == Attributes(files[k])
  {
    if files != [] {
      var init := files[..|files| - 1];
      ListedMembers(init, prefix, x);
      if x in Listed(init, prefix) {
        var k :| 0 <= k < |init| && Selected(init[k], prefix) && x == Attributes(init[k]);
        assert files[k] == init[k];
      }
      if exists k :: 0 <= k < |files| && Selected(files[k], prefix) && x == Attributes(files[k]) {
        var k :| 0 <= k < |files| && Selected(files[k], prefix) && x == Attributes(files[k]);
        if k < |init| {
          assert init[k] == files[k];
        }
      }
    }
  }

  /** The listing step of `listContents($path, $deep)`; `deep` only appears in the error. */
  function ListContentsReply(conn: Connection, path: string, deep: bool, o: Outcome, now: Moment)
    : (r: Result<seq<FileAttributes>, AdapterFailure>)
    ensures var l := ListReply(conn, o, now);
      && (l.Ok? ==> r == Ok(Listed(l.value, TrimSlashes(path))))
      && (l.Err? && l.error.Storage? ==> r == Err(Fs(UnableToListContents(path, deep, l.error.e))))
      && (l.Err? && l.error.Fault? ==> r == Err(Escaped(l.error.t)))
  {
    match ListReply(conn, o, now)
    case Ok(files) => Ok(Listed(files, TrimSlashes(path)))
    case Err(Storage(e)) => Err(Fs(UnableToListContents(path, deep, e)))
    case Err(Fault(t)) => Err(Escaped(t))
  }

  /** The deep flag never changes what is listed. */
  lemma ListingIgnoresDeep(conn: Connection, path: string, o: Outcome, now: Moment)
    ensures ListContentsReply(conn, path, true, o, now).Ok? == ListContentsReply(conn, path, false, o, now).Ok?
    ensures ListContentsReply(conn, path, true, o, now).Ok? ==>
      ListContentsReply(conn, path, true, o, now).value == ListContentsReply(conn, path, false, o, now).value
  {
  }

  /** A path made only of slashes lists the whole store. */
  lemma SlashPathListsAll(conn: Connection, path: string, o: Outcome, now: Moment)
    requires AllSlashes(path) && ListReply(conn, o, now).Ok?
    ensures var files := ListReply(conn, o, now).value;
      ListContentsReply(conn, path, false, o, now) == Ok(Listed(files, ""))
      && |Listed(files, "")| == |files|
  {
    TrimSlashesEmpty(path);
    ListedRoot(ListReply(conn, o, now).value);
  }

  /** The generator loop of listContents over an already fetched listing. */
  method FilterListing(files: seq<FileInfo>, prefix: string) returns (entries: seq<FileAttributes>)
    ensures entries == Listed(files, prefix)
  {
    entries := [];
    var i := 0;
    while i < |files|
      invariant 0 <= i <= |files|
      invariant entries == Listed(files[..i], prefix)
    {
      var file := files[i];
      assert files[..i + 1][..i] == files[..i];
      if prefix != "" && !StartsWith(file.jobId, prefix) {
        i := i + 1;
        continue;
      }
      entries := entries + [Attributes(file)];
      i := i + 1;
    }
    assert files[..i] == files;
  }

  // ---------------------------------------------------------------- multi-request operations

  /** `copy($source, $destination)`: read, then write what was read; a failed read writes nothing. */
  function CopyReply(conn: Connection, source: string, destination: string, read: Outcome, write: Outcome)
    : (r: Result<(), AdapterFailure>)
    ensures var rd := ReadReply(conn, source, read);
      && (r.Ok? <==> rd.Ok? && WriteReply(conn, destination, rd.value, write).Ok?)
      && (rd.Err? && rd.error.Fs? ==> r == Err(Fs(UnableToCopyFile(source, destination, rd.error.error))))
      && (rd.Err? && rd.error.Escaped? ==> r == Err(rd.error))
      && (rd.Ok? && WriteReply(conn, destination, rd.value, write).Err? &&
          WriteReply(conn, destination, rd.value, write).error.Escaped? ==>
            r == Err(WriteReply(conn, destination, rd.value, write).error))
      && (rd.Ok? && WriteReply(conn, destination, rd.value, write).Err? &&
          WriteReply(conn, destination, rd.value, write).error.Fs? ==>
            r == Err(Fs(UnableToCopyFile(source, destination, WriteReply(conn, destination, rd.value, write).error.error))))
  {
    match ReadReply(conn, source, read)
    case Err(Fs(e)) => Err(Fs(UnableToCopyFile(source, destination, e)))
    case Err(Escaped(t)) => Err(Escaped(t))
    case Ok(bytes) =>
      match WriteReply(conn, destination, bytes, write)
      case Err(Fs(e)) => Err(Fs(UnableToCopyFile(source, destination, e)))
      case Err(Escaped(t)) => Err(Escaped(t))
      case Ok(_) => Ok(())
  }

  /** The requests copy sends: the download, then the upload only if the download succeeded. */
  function CopyRequests(conn: Connection, source: string, destination: string, read: Outcome): seq<Request> {
    [DownloadRequest(conn, source, false)]
    + match ReadReply(conn, source, read)
      case Ok(bytes) => [UploadContentRequest(conn, destination, bytes)]
      case Err(_) => []
  }

  /** Copy uploads to the destination exactly the bytes the source download returned, never with keep. */
  lemma CopyWritesWhatItRead(conn: Connection, source: string, destination: string, read: Outcome)
    ensures CopyRequests(conn, source, destination, read)[0].path == DownloadPath(source, false)
    ensures ReadReply(conn, source, read).Ok? ==>
      |CopyRequests(conn, source, destination, read)| == 2 && read.Resp?
      && CopyRequests(conn, source, destination, read)[1].body == Raw(destination, OctetStream, read.response.body)
    ensures ReadReply(conn, source, read).Err? ==> |CopyRequests(conn, source, destination, read)| == 1
  {
  }

  /** `move($source, $destination)`: copy, then delete the source; either failure becomes UnableToMoveFile. */
  function MoveReply(conn: Connection, source: string, destination: string, read: Outcome, write: Outcome, delete: Outcome)
    : (r: Result<(), AdapterFailure>)
    ensures var c := CopyReply(conn, source, destination, read, write);
      && (r.Ok? <==> c.Ok? && DeleteFileReply(conn, source, delete).Ok?)
      && (c.Err? && c.error.Fs? ==> r == Err(Fs(UnableToMoveFile(source, destination, c.error.error))))
      && (c.Err? && c.error.Escaped? ==> r == Err(c.error))
      && (c.Ok? && DeleteFileReply(conn, source, delete).Err? ==>
            r == Err(Fs(UnableToMoveFile(source, destination, DeleteFileReply(conn, source, delete).error.error))))
  {
    match CopyReply(conn, source, destination, read, write)
    case Err(Fs(e)) => Err(Fs(UnableToMoveFile(source, destination, e)))
    case Err(Escaped(t)) => Err(Escaped(t))
    case Ok(_) =>
      match DeleteFileReply(conn, source, delete)
      case Err(Fs(e)) => Err(Fs(UnableToMoveFile(source, destination, e)))
      case Err(Escaped(t)) => Err(Escaped(t))
      case Ok(_) => Ok(())
  }

  function MoveRequests(conn: Connection, source: string, destination: string, read: Outcome, write: Outcome)
    : seq<Request>
  {
    CopyRequests(conn, source, destination, read)
    + if CopyReply(conn, source, destination, read, write).Ok? then [DeleteRequest(conn, source)] else []
  }

  /**
   * A move whose copy succeeded but whose delete failed has still written the
   * destination, and reports UnableToMoveFile around UnableToDeleteFile.
   */
  lemma MoveKeepsCopyOnDeleteFailure(
    conn: Connection, source: string, destination: string, read: Outcome, write: Outcome, delete: Outcome)
    requires CopyReply(conn, source, destination, read, write).Ok?
    requires DeleteFileReply(conn, source, delete).Err?
    ensures var reqs := MoveRequests(conn, source, destination, read, write);
      |reqs| == 3 && reqs[1].verb == Post && reqs[1].body.Raw? && reqs[1].body.jobIdHeader == destination
      && reqs[2] == DeleteRequest(conn, source)
    ensures var r := MoveReply(conn, source, destination, read, write, delete);
      r.Err? && r.error.Fs? && r.error.error.UnableToMoveFile? && r.error.error.inner.UnableToDeleteFile?
  {
  }

  /** How far a run of deletes got: its result and how many deletes were sent. */
  datatype Run = Run(result: Result<(), AdapterFailure>, attempted: nat)

  function Later(run: Run, n: nat): Run {
    Run(run.result, run.attempted + n)
  }

  /** The deleteDirectory loop: delete each path in order, stopping at the first failure. */
  function DeleteEach(conn: Connection, paths: seq<string>, replies: seq<Outcome>): (run: Run)
    ensures run.attempted <= |paths|
    ensures run.result.Ok? ==> run.attempted == |paths|
    ensures run.result.Err? ==>
      0 < run.attempted &&
      DeleteFileReply(conn, paths[run.attempted - 1], NextReply(Skip(replies, run.attempted - 1))) == run.result
    ensures forall k :: 0 <= k < run.attempted - (if run.result.Ok? then 0 else 1) ==>
      DeleteFileReply(conn, paths[k], NextReply(Skip(replies, k))).Ok?
  {
    if paths == [] then Run(Ok(()), 0)
    else
      match DeleteFileReply(conn, paths[0], NextReply(replies))
      case Err(e) => Run(Err(e), 1)
      case Ok(_) =>
        var rest := DeleteEach(conn, paths[1..], LaterReplies(replies));
        assert forall k :: 0 <= k < rest.attempted ==> Skip(replies, k + 1) == Skip(LaterReplies(replies), k);
        assert forall k :: 1 <= k < rest.attempted + 1 ==> paths[k] == paths[1..][k - 1];
        Later(rest, 1)
  }

  /** A run of deletes that fails with a filesystem error reports the UnableToDeleteFile of the last path it tried. */
  lemma DeleteEachFailure(conn: Connection, paths: seq<string>, replies: seq<Outcome>)
    requires DeleteEach(conn, paths, replies).result.Err?
    requires DeleteEach(conn, paths, replies).result.error.Fs?
    ensures var run := DeleteEach(conn, paths, replies);
      run.result.error.error.UnableToDeleteFile? && run.result.error.error.location == paths[run.attempted - 1]
  {
    var run := DeleteEach(conn, paths, replies);
    var failed := paths[run.attempted - 1];
    assert DeleteFileReply(conn, failed, NextReply(Skip(replies, run.attempted - 1))) == run.result;
  }

  /** One step of the delete loop: the run from path `i` on either stops at path `i` or continues from `i + 1`. */
  lemma DeleteEachStep(conn: Connection, paths: seq<string>, replies: seq<Outcome>, i: nat)
    requires i < |paths|
    ensures var d := DeleteFileReply(conn, paths[i], NextReply(Skip(replies, i)));
      DeleteEach(conn, paths[i..], Skip(replies, i))
        == if d.Err? then Run(d, 1) else Later(DeleteEach(conn, paths[i + 1..], Skip(replies, i + 1)), 1)
  {
    assert paths[i..][1..] == paths[i + 1..];
    SkipLater(replies, i);
  }

  function Paths(entries: seq<FileAttributes>): (ps: seq<string>)
    ensures |ps| == |entries| && forall k :: 0 <= k < |entries| ==> ps[k] == entries[k].path
  {
    seq(|entries|, k requires 0 <= k < |entries| => entries[k].path)
  }

  function DeleteRequests(conn: Connection, paths: seq<string>): (reqs: seq<Request>)
    ensures |reqs| == |paths| && forall k :: 0 <= k < |paths| ==> reqs[k] == DeleteRequest(conn, paths[k])
  {
    seq(|paths|, k requires 0 <= k < |paths| => DeleteRequest(conn, paths[k]))
  }

  lemma DeleteRequestsStep(conn: Connection, paths: seq<string>, i: nat)
    requires i < |paths|
    ensures DeleteRequests(conn, paths[..i + 1]) == DeleteRequests(conn, paths[..i]) + [DeleteRequest(conn, paths[i])]
  {
    assert paths[..i + 1] == paths[..i] + [paths[i]];
  }

  /**
   * `deleteDirectory($path)`: list deeply, then delete every listed file in
   * order; a listing or delete failure becomes UnableToDeleteDirectory.
   */
  function DeleteDirectoryRun(conn: Connection, path: string, replies: seq<Outcome>, now: Moment): (run: Run)
    ensures var l := ListContentsReply(conn, path, true, NextReply(replies), now);
      && (l.Err? ==> run.attempted == 0 && run.result.Err?)
      && (l.Err? && l.error.Fs? ==> run.result == Err(Fs(UnableToDeleteDirectory(path, l.error.error))))
      && (l.Err? && l.error.Escaped? ==> run.result == Err(l.error))
      && (l.Ok? ==>
            var d := DeleteEach(conn, Paths(l.value), LaterReplies(replies));
            && run.attempted == d.attempted
            && (run.result.Ok? <==> d.result.Ok?)
            && (d.result.Err? && d.result.error.Fs? ==>
                  run.result == Err(Fs(UnableToDeleteDirectory(path, d.result.error.error))))
            && (d.result.Err? && d.result.error.Escaped? ==> run.result == d.result))
  {
    match ListContentsReply(conn, path, true, NextReply(replies), now)
    case Err(Fs(e)) => Run(Err(Fs(UnableToDeleteDirectory(path, e))), 0)
    case Err(Escaped(t)) => Run(Err(Escaped(t)), 0)
    case Ok(entries) =>
      var run := DeleteEach(conn, Paths(entries), LaterReplies(replies));
      match run.result
      case Err(Fs(e)) => Run(Err(Fs(UnableToDeleteDirectory(path, e))), run.attempted)
      case _ => run
  }

  // ---------------------------------------------------------------- the adapter object

  class SimpleStorageAdapter {
    const client: SimpleStorageClient

    constructor (client: SimpleStorageClient)
      ensures this.client == client
    {
      this.client := client;
    }

    method FileExists(path: string, now: Moment) returns (r: Result<bool, AdapterFailure>)
      modifies client.transport
      ensures client.transport.sent == old(client.transport.sent) + [ListRequest(client.Conn())]
      ensures client.transport.replies == LaterReplies(old(client.transport.replies))
      ensures r == FileExistsReply(client.Conn(), path, NextReply(old(client.transport.replies)), now)
    {
      var e := client.Exists(path, now);
      match e
      case Ok(b) => r := Ok(b);
      case Err(t) => r := Err(Escaped(t));
    }

    /** `directoryExists($path)`: the store is flat. */
    function DirectoryExists(path: string): (b: bool)
      ensures !b
    {
      false
    }

    /** `createDirectory($path)`: directories are virtual, so nothing is sent and nothing changes. */
    method CreateDirectory(path: string) returns (r: Result<(), AdapterFailure>)
      ensures r.Ok?
    {
      r := Ok(());
    }

    /** `setVisibility($path, $visibility)`: unsupported; no request is made. */
    function SetVisibility(path: string, visibility: string): (r: Result<(), AdapterFailure>)
      ensures r.Err? && r.error == Fs(UnableToSetVisibility(path, VisibilityReason))
    {
      Err(Fs(UnableToSetVisibility(path, VisibilityReason)))
    }

    /** `visibility($path)`: unsupported; no request is made. */
    function Visibility(path: string): (r: Result<FileAttributes, AdapterFailure>)
      ensures r.Err? && r.error == Fs(UnableToRetrieveMetadata(path, VisibilityMeta, VisibilityReason, None))
    {
      Err(Fs(UnableToRetrieveMetadata(path, VisibilityMeta, VisibilityReason, None)))
    }

    /** `mimeType($path)`: unsupported; no request is made. */
    function MimeType(path: string): (r: Result<FileAttributes, AdapterFailure>)
      ensures r.Err? && r.error == Fs(UnableToRetrieveMetadata(path, MimeTypeMeta, MimeTypeReason, None))
    {
      Err(Fs(UnableToRetrieveMetadata(path, MimeTypeMeta, MimeTypeReason, None)))
    }

    method Write(path: string, contents: Bytes) returns (r: Result<(), AdapterFailure>)
      modifies client.transport
      ensures client.transport.sent == old(client.transport.sent) + [UploadContentRequest(client.Conn(), path, contents)]
      ensures client.transport.replies == LaterReplies(old(client.transport.replies))
      ensures r == WriteReply(client.Conn(), path, contents, NextReply(old(client.transport.replies)))
    {
      var u := client.UploadContent(path, contents);
      match u
      case Ok(_) => r := Ok(());
      case Err(Storage(e)) => r := Err(Fs(UnableToWriteFile(path, e.message, e)));
      case Err(Fault(t)) => r := Err(Escaped(t));
    }

    method Read(path: string) returns (r: Result<Bytes, AdapterFailure>)
      modifies client.transport
      ensures client.transport.sent == old(client.transport.sent) + [DownloadRequest(client.Conn(), path, false)]
      ensures client.transport.replies == LaterReplies(old(client.transport.replies))
      ensures r == ReadReply(client.Conn(), path, NextReply(old(client.transport.replies)))
    {
      var d := client.Download(path, false);
      match d
      case Ok(bytes) => r := Ok(bytes);
      case Err(Storage(e)) => r := Err(Fs(UnableToReadFile(path, e.message, e)));
      case Err(Fault(t)) => r := Err(Escaped(t));
    }

    method Delete(path: string) returns (r: Result<(), AdapterFailure>)
      modifies client.transport
      ensures client.transport.sent == old(client.transport.sent) + [DeleteRequest(client.Conn(), path)]
      ensures client.transport.replies == LaterReplies(old(client.transport.replies))
      ensures r == DeleteFileReply(client.Conn(), path, NextReply(old(client.transport.replies)))
    {
      var d := client.Delete(path);
      match d
      case Ok(_) => r := Ok(());
      case Err(Storage(e)) => r := Err(Fs(UnableToDeleteFile(path, e.message, e)));
      case Err(Fault(t)) => r := Err(Escaped(t));
    }

    method LastModified(path: string, now: Moment) returns (r: Result<FileAttributes, AdapterFailure>)
      modifies client.transport
      ensures client.transport.sent == old(client.transport.sent) + [ListRequest(client.Conn())]
      ensures client.transport.replies == LaterReplies(old(client.transport.replies))
      ensures r == LastModifiedReply(client.Conn(), path, NextReply(old(client.transport.replies)), now)
    {
      var l := client.List(now);
      match l
      case Ok(files) =>
        var i := FirstMatch(files, path);
        if i.None? {
          return Err(Fs(UnableToRetrieveMetadata(path, LastModifiedMeta, NotFoundReason, None)));
        }
        var file := files[i.value];
        r := Ok(FileAttributes(path, Some(file.fileSize), None, Some(file.uploadedAt)));
      case Err(Storage(e)) => r := Err(Fs(UnableToRetrieveMetadata(path, LastModifiedMeta, e.message, Some(e))));
      case Err(Fault(t)) => r := Err(Escaped(t));
    }

    method FileSize(path: string, now: Moment) returns (r: Result<FileAttributes, AdapterFailure>)
      modifies client.transport
      ensures client.transport.sent == old(client.transport.sent) + [ListRequest(client.Conn())]
      ensures client.transport.replies == LaterReplies(old(client.transport.replies))
      ensures r == FileSizeReply(client.Conn(), path, NextReply(old(client.transport.replies)), now)
    {
      var l := client.List(now);
      match l
      case Ok(files) =>
        var i := FirstMatch(files, path);
        if i.None? {
          return Err(Fs(UnableToRetrieveMetadata(path, FileSizeMeta, NotFoundReason, None)));
        }
        r := Ok(FileAttributes(path, Some(files[i.value].fileSize), None, None));
      case Err(Storage(e)) => r := Err(Fs(UnableToRetrieveMetadata(path, FileSizeMeta, e.message, Some(e))));
      case Err(Fault(t)) => r := Err(Escaped(t));
    }

    /** `listContents($path, $deep)`, run to completion by its consumer. */
    method ListContents(path: string, deep: bool, now: Moment) returns (r: Result<seq<FileAttributes>, AdapterFailure>)
      modifies client.transport
      ensures client.transport.sent == old(client.transport.sent) + [ListRequest(client.Conn())]
      ensures client.transport.replies == LaterReplies(old(client.transport.replies))
      ensures r == ListContentsReply(client.Conn(), path, deep, NextReply(old(client.transport.replies)), now)
    {
      var l := client.List(now);
      match l
      case Ok(files) =>
        var entries := FilterListing(files, TrimSlashes(path));
        r := Ok(entries);
      case Err(Storage(e)) => r := Err(Fs(UnableToListContents(path, deep, e)));
      case Err(Fault(t)) => r := Err(Escaped(t));
    }

    method Copy(source: string, destination: string) returns (r: Result<(), AdapterFailure>)
      modifies client.transport
      ensures var rs := old(client.transport.replies);
        var reqs := CopyRequests(client.Conn(), source, destination, NextReply(rs));
        && client.transport.sent == old(client.transport.sent) + reqs
        && client.transport.replies == Skip(rs, |reqs|)
        && r == CopyReply(client.Conn(), source, destination, NextReply(rs), NextReply(Skip(rs, 1)))
    {
      ghost var rs := client.transport.replies;
      var content := Read(source);
      match content
      case Err(Fs(e)) => r := Err(Fs(UnableToCopyFile(source, destination, e)));
      case Err(Escaped(t)) => r := Err(Escaped(t));
      case Ok(bytes) =>
        var w := Write(destination, bytes);
        SkipLater(rs, 1);
        match w
        case Err(Fs(e)) => r := Err(Fs(UnableToCopyFile(source, destination, e)));
        case Err(Escaped(t)) => r := Err(Escaped(t));
        case Ok(_) => r := Ok(());
    }

    method Move(source: string, destination: string) returns (r: Result<(), AdapterFailure>)
      modifies client.transport
      ensures var rs := old(client.transport.replies);
        var reqs := MoveRequests(client.Conn(), source, destination, NextReply(rs), NextReply(Skip(rs, 1)));
        && client.transport.sent == old(client.transport.sent) + reqs
        && client.transport.replies == Skip(rs, |reqs|)
        && r == MoveReply(client.Conn(), source, destination, NextReply(rs), NextReply(Skip(rs, 1)),
                          NextReply(Skip(rs, 2)))
    {
      ghost var rs := client.transport.replies;
      var c := Copy(source, destination);
      match c
      case Err(Fs(e)) => r := Err(Fs(UnableToMoveFile(source, destination, e)));
      case Err(Escaped(t)) => r := Err(Escaped(t));
      case Ok(_) =>
        var d := Delete(source);
        SkipLater(rs, 2);
        match d
        case Err(Fs(e)) => r := Err(Fs(UnableToMoveFile(source, destination, e)));
        case Err(Escaped(t)) => r := Err(Escaped(t));
        case Ok(_) => r := Ok(());
    }

    /** The loop of deleteDirectory: delete each path in order, stopping at the first failure. */
    method DeleteEachPath(paths: seq<string>) returns (run: Run)
      modifies client.transport
      ensures var rs := old(client.transport.replies);
        && run == DeleteEach(client.Conn(), paths, rs)
        && client.transport.replies == Skip(rs, run.attempted)
        && client.transport.sent == old(client.transport.sent) + DeleteRequests(client.Conn(), paths[..run.attempted])
    {
      ghost var conn := client.Conn();
      ghost var rs := client.transport.replies;
      ghost var sent0 := client.transport.sent;
      var i := 0;
      while i < |paths|
        invariant 0 <= i <= |paths|
        invariant client.Conn() == conn
        invariant client.transport.replies == Skip(rs, i)
        invariant client.transport.sent == sent0 + DeleteRequests(conn, paths[..i])
        invariant DeleteEach(conn, paths, rs) == Later(DeleteEach(conn, paths[i..], Skip(rs, i)), i)
      {
        var d := Delete(paths[i]);
        SkipLater(rs, i);
        DeleteEachStep(conn, paths, rs, i);
        DeleteRequestsStep(conn, paths, i);
        if d.Err? {
          assert DeleteEach(conn, paths, rs) == Run(d, i + 1);
          return Run(d, i + 1);
        }
        i := i + 1;
      }
      assert paths[..i] == paths;
      run := Run(Ok(()), i);
    }

    method DeleteDirectory(path: string, now: Moment) returns (r: Result<(), AdapterFailure>)
      modifies client.transport
      ensures var rs := old(client.transport.replies);
        var l := ListContentsReply(client.Conn(), path, true, NextReply(rs), now);
        var run := DeleteDirectoryRun(client.Conn(), path, rs, now);
        && r == run.result
        && client.transport.replies == Skip(rs, 1 + run.attempted)
        && client.transport.sent == old(client.transport.sent) + [ListRequest(client.Conn())]
             + (if l.Ok? then DeleteRequests(client.Conn(), Paths(l.value)[..run.attempted]) else [])
    {
      ghost var rs := client.transport.replies;
      var listing := ListContents(path, true, now);
      var entries;
      match listing {
        case Err(Fs(e)) =>
          return Err(Fs(UnableToDeleteDirectory(path, e)));
        case Err(Escaped(t)) =>
          return Err(Escaped(t));
        case Ok(es) =>
          entries := es;
      }
      var run := DeleteEachPath(Paths(entries));
      match run.result {
        case Err(Fs(e)) => r := Err(Fs(UnableToDeleteDirectory(path, e)));
        case _ => r := run.result;
      }
    }
  }
}
