/**
 * SimpleStorageClient: connection settings, request construction, and the
 * mapping from a transport Outcome to a value or a typed error.
 *
 * Each operation is split in two: a pure `...Reply` function that says what
 * the client makes of one Outcome, and a method of the class that builds the
 * request, hands it to the Transport, and applies that function.
 */
module Client {
  import opened Wrappers
  import opened Php
  import opened Http
  import opened Exceptions
  import opened DataTransferObjects

  /** What an operation can raise: a SimpleStorageException, or a PHP TypeError, which no catch here intercepts. */
  datatype Failure = Storage(e: StorageException) | Fault(t: TypeError)

  /**
   * A configuration array as given to the constructor, or the application's
   * simple-storage configuration. None is an absent key. In the given array a
   * null falls back like an absent key; a null held by the application
   * configuration is used as it is. Values are untyped: the application
   * configuration reads them from the environment, where a number is text.
   */
  datatype ClientOptions = ClientOptions(
    baseUrl: Option<Json>, apiKey: Option<Json>, timeout: Option<Json>, connectTimeout: Option<Json>,
    retryTimes: Option<Json>, retrySleepMs: Option<Json>, verifySsl: Option<Json>)

  const NoOptions: ClientOptions := ClientOptions(None, None, None, None, None, None, None)

  /** The resolved settings of one client. */
  datatype Connection = Connection(baseUrl: string, apiKey: string, options: TransportOptions)

  const DefaultBaseUrl: string := "http://localhost:5000"

  /** One setting: the given value, else the application's, else the default. */
  function Resolve(given: Option<Json>, app: Option<Json>, default: Json): (v: Json)
    ensures given.Some? && given.value != JNull ==> v == given.value
    ensures (given.None? || given.value == JNull) && app.Some? ==> v == app.value
    ensures (given.None? || given.value == JNull) && app.None? ==> v == default
  {
    if given.Some? && given.value != JNull then given.value else app.GetOr(default)
  }

  /** Assigning a setting to a string-typed property (or passing it to the trim), under strict types. */
  function StringSetting(v: Json, name: string): (r: Result<string, TypeError>)
    ensures r.Ok? <==> v.JStr?
    ensures r.Ok? ==> r.value == v.s
  {
    if v.JStr? then Ok(v.s) else Err(TypeError(name))
  }

  /** Assigning a setting to an int-typed property under strict types: only an integer is accepted. */
  function IntSetting(v: Json, name: string): (r: Result<int, TypeError>)
    ensures r.Ok? <==> v.JInt?
    ensures r.Ok? ==> r.value == v.i
  {
    if v.JInt? then Ok(v.i) else Err(TypeError(name))
  }

  /** Assigning a setting to a bool-typed property under strict types: only a boolean is accepted. */
  function BoolSetting(v: Json, name: string): (r: Result<bool, TypeError>)
    ensures r.Ok? <==> v.JBool?
    ensures r.Ok? ==> r.value == v.b
  {
    if v.JBool? then Ok(v.b) else Err(TypeError(name))
  }

  /**
   * The constructor: every setting is resolved and assigned in turn (base URL,
   * key, timeout, connect timeout, retry times, retry sleep, TLS verification);
   * the base URL loses its trailing slashes; the first setting of the wrong
   * type raises a TypeError.
   */
  function Configure(given: ClientOptions, app: ClientOptions): (r: Result<Connection, TypeError>)
    ensures var url := Resolve(given.baseUrl, app.baseUrl, JStr(DefaultBaseUrl));
      var key := Resolve(given.apiKey, app.apiKey, JStr(""));
      var timeout := Resolve(given.timeout, app.timeout, JInt(120));
      var connectTimeout := Resolve(given.connectTimeout, app.connectTimeout, JInt(10));
      var retryTimes := Resolve(given.retryTimes, app.retryTimes, JInt(3));
      var retrySleepMs := Resolve(given.retrySleepMs, app.retrySleepMs, JInt(500));
      var verifySsl := Resolve(given.verifySsl, app.verifySsl, JBool(true));
      && (r.Ok? <==> url.JStr? && key.JStr? && timeout.JInt? && connectTimeout.JInt? && retryTimes.JInt?
                     && retrySleepMs.JInt? && verifySsl.JBool?)
      && (r.Ok? ==>
            && !EndsWithSlash(r.value.baseUrl) && r.value.baseUrl == RTrimSlashes(url.s)
            && JStr(r.value.apiKey) == key
            && JInt(r.value.options.timeout) == timeout
            && JInt(r.value.options.connectTimeout) == connectTimeout
            && JInt(r.value.options.retryTimes) == retryTimes
            && JInt(r.value.options.retrySleepMs) == retrySleepMs
            && JBool(r.value.options.verifySsl) == verifySsl)
  {
    var url :- StringSetting(Resolve(given.baseUrl, app.baseUrl, JStr(DefaultBaseUrl)), "base_url");
    var key :- StringSetting(Resolve(given.apiKey, app.apiKey, JStr("")), "api_key");
    var timeout :- IntSetting(Resolve(given.timeout, app.timeout, JInt(120)), "timeout");
    var connectTimeout :- IntSetting(Resolve(given.connectTimeout, app.connectTimeout, JInt(10)), "connect_timeout");
    var retryTimes :- IntSetting(Resolve(given.retryTimes, app.retryTimes, JInt(3)), "retry.times");
    var retrySleepMs :- IntSetting(Resolve(given.retrySleepMs, app.retrySleepMs, JInt(500)), "retry.sleep_ms");
    var verifySsl :- BoolSetting(Resolve(given.verifySsl, app.verifySsl, JBool(true)), "verify_ssl");
    Ok(Connection(RTrimSlashes(url), key,
                  TransportOptions(timeout, connectTimeout, retryTimes, retrySleepMs, verifySsl)))
  }

  /** With nothing configured anywhere, the documented defaults apply. */
  lemma DefaultConfiguration()
    ensures Configure(NoOptions, NoOptions) == Ok(Connection(DefaultBaseUrl, "", TransportOptions(120, 10, 3, 500, true)))
  {
  }

  /**
   * A numeric setting that reaches the constructor as text, as a value read
   * from the environment does, makes the constructor raise a TypeError.
   */
  lemma TextualTimeoutFails(given: ClientOptions, app: ClientOptions, text: string)
    requires given.timeout.None? || given.timeout == Some(JNull)
    requires app.timeout == Some(JStr(text))
    ensures Configure(given, app).Err?
  {
  }

  // ---------------------------------------------------------------- requests

  /** `httpClient($withAuth)`: the token is attached only when asked for and the key is truthy. */
  function Bearer(conn: Connection, withAuth: bool): (token: Option<string>)
    ensures token.Some? <==> withAuth && conn.apiKey != "" && conn.apiKey != "0"
    ensures token.Some? ==> token.value == conn.apiKey
  {
    if withAuth && Truthy(conn.apiKey) then Some(conn.apiKey) else None
  }

  function Prepare(conn: Connection, withAuth: bool, verb: Verb, path: string, body: Body): Request {
    Request(conn.baseUrl, conn.options, Bearer(conn, withAuth), verb, path, body)
  }

  function HealthRequest(conn: Connection): Request {
    Prepare(conn, false, Get, "/health", NoBody)
  }

  function UploadRequest(conn: Connection, jobId: string, filePath: string, contents: Bytes): Request {
    Prepare(conn, true, Post, "/upload", Multipart(jobId, contents, BaseName(filePath)))
  }

  const OctetStream: string := "application/octet-stream"

  function UploadContentRequest(conn: Connection, jobId: string, content: Bytes): Request {
    Prepare(conn, true, Post, "/upload", Raw(jobId, OctetStream, content))
  }

  const DownloadPrefix: string := "/download/"
  const KeepQuery: string := "?keep=true"

  /** The download path: the job id after "/download/", followed by the keep query when the file is to be kept. */
  function DownloadPath(jobId: string, keep: bool): string {
    DownloadPrefix + jobId + (if keep then KeepQuery else "")
  }

  function DownloadRequest(conn: Connection, jobId: string, keep: bool): Request {
    Prepare(conn, true, Get, DownloadPath(jobId, keep), NoBody)
  }

  function DeleteRequest(conn: Connection, jobId: string): Request {
    Prepare(conn, true, Delete, "/delete/" + jobId, NoBody)
  }

  function ListRequest(conn: Connection): Request {
    Prepare(conn, true, Get, "/list", NoBody)
  }

  /** Only the health probe goes out without credentials; every other request carries the key when it is truthy. */
  lemma AuthenticationOfRequests(conn: Connection, jobId: string, filePath: string, content: Bytes, keep: bool)
    ensures HealthRequest(conn).bearer == None
    ensures var authed := if Truthy(conn.apiKey) then Some(conn.apiKey) else None;
      && UploadRequest(conn, jobId, filePath, content).bearer == authed
      && UploadContentRequest(conn, jobId, content).bearer == authed
      && DownloadRequest(conn, jobId, keep).bearer == authed
      && DeleteRequest(conn, jobId).bearer == authed
      && ListRequest(conn).bearer == authed
  {
  }

  /** The download path names the job and asks the server to keep the file exactly when `keep` is set. */
  lemma DownloadPathShape(jobId: string, keep: bool)
    ensures StartsWith(DownloadPath(jobId, keep), DownloadPrefix + jobId)
    ensures keep ==> DownloadPath(jobId, keep)[|DownloadPrefix + jobId|..] == KeepQuery
    ensures !keep ==> DownloadPath(jobId, keep) == DownloadPrefix + jobId
  {
    var p := DownloadPath(jobId, keep);
    assert p[..|DownloadPrefix + jobId|] == DownloadPrefix + jobId;
  }

  /**
   * For job ids without a '?', the path determines both the job id and the
   * keep flag (the id is interpolated unencoded, so an id containing
   * "?keep=true" would be indistinguishable).
   */
  lemma {:induction false} DownloadPathInjective(a: string, ka: bool, b: string, kb: bool)
    requires '?' !in a && '?' !in b
    requires DownloadPath(a, ka) == DownloadPath(b, kb)
    ensures a == b && ka == kb
  {
    var p := DownloadPath(a, ka);
    var n := |DownloadPrefix|;
    var sa := if ka then KeepQuery else "";
    var sb := if kb then KeepQuery else "";
    assert p == DownloadPrefix + (a + sa) == DownloadPrefix + (b + sb);
    assert p[n..] == a + sa == b + sb;
    if ka != kb {
      QueryMarksPath(a);
      QueryMarksPath(b);
      assert false;
    }
    assert a == (a + sa)[..|a|];
  }

  lemma QueryMarksPath(jobId: string)
    ensures '?' in jobId + KeepQuery
  {
    assert (jobId + KeepQuery)[|jobId|] == '?';
  }

  // ---------------------------------------------------------------- responses

  /** The body as the array handleResponse returns: a JSON object, or nothing for null and for a list (no string keys). */
  function ObjectOf(json: Json): Option<map<string, Json>> {
    match json
    case JObj(fields) => Some(fields)
    case JNull => Some(map[])
    case JArr(_) => Some(map[])
    case _ => None
  }

  /**
   * `handleResponse($response, $context)`: a 2xx gives the decoded body (an
   * empty array for null); 401 gives `unauthorized()`; every other status,
   * 404 and 410 included, gives `fromResponse` with the operation's context.
   */
  function HandleResponse(resp: Response, context: string): (r: Result<map<string, Json>, Failure>)
    ensures Successful(resp.status) && resp.json.JObj? ==> r == Ok(resp.json.fields)
    ensures Successful(resp.status) && resp.json == JNull ==> r == Ok(map[])
    ensures Successful(resp.status) ==> (r.Ok? <==> ObjectOf(resp.json).Some?)
    ensures Successful(resp.status) && ObjectOf(resp.json).Some? ==> r == Ok(ObjectOf(resp.json).value)
    ensures Successful(resp.status) && ObjectOf(resp.json).None? ==> r.Err? && r.error.Fault?
    ensures resp.status == 401 ==> r == Err(Storage(Unauthorized()))
    ensures !Successful(resp.status) ==> r.Err?
    ensures !Successful(resp.status) && resp.status != 401 && FromResponse(resp, context).Ok? ==>
      r == Err(Storage(FromResponse(resp, context).value))
    ensures !Successful(resp.status) && resp.status != 401 && FromResponse(resp, context).Err? ==>
      r == Err(Fault(FromResponse(resp, context).error))
    ensures !Successful(resp.status) && resp.status != 401 && Truthy(context) ==>
      r.Err? && r.error.Storage? && r.error.e.code == resp.status && r.error.e.response == Some(resp)
      && StartsWith(r.error.e.message, context + ": ")
  {
    if Successful(resp.status) then
      match ObjectOf(resp.json)
      case Some(data) => Ok(data)
      case None => Err(Fault(TypeError("handleResponse(): array")))
    else if resp.status == 401 then
      Err(Storage(Unauthorized()))
    else
      match FromResponse(resp, context)
      case Ok(e) => Err(Storage(e))
      case Err(t) => Err(Fault(t))
  }

  /** A TypeError from parsing a payload, as a client failure. */
  function Parsed<T>(r: Result<T, TypeError>): (f: Result<T, Failure>)
    ensures r.Ok? <==> f.Ok?
    ensures f.Ok? ==> f.value == r.value
  {
    match r
    case Ok(v) => Ok(v)
    case Err(t) => Err(Fault(t))
  }

  /** The transport's connection failure, rethrown as the connectionFailed error for the base URL, with the failure as its cause. */
  function Unreachable(conn: Connection, cause: Cause): Failure {
    Storage(ConnectionFailed(conn.baseUrl, Some(cause)))
  }

  const HealthContext: string := "Health check failed"
  const UploadContext: string := "Upload failed"
  const DownloadContext: string := "Download failed"
  const DeleteContext: string := "Delete failed"
  const ListContext: string := "List failed"

  /** `health()`; `now` is the current time used for a missing timestamp. */
  function HealthReply(conn: Connection, o: Outcome, now: string): (r: Result<HealthStatus, Failure>)
    ensures o.ConnFail? ==> r == Err(Storage(ConnectionFailed(conn.baseUrl, Some(o.cause))))
    ensures o.Resp? && o.response.status == 401 ==> r == Err(Storage(Unauthorized()))
    ensures o.Resp? && !Successful(o.response.status) && o.response.status != 401 ==>
      r == Err(Storage(FromResponse(o.response, HealthContext).value))
    ensures o.Resp? && Successful(o.response.status) && ObjectOf(o.response.json).Some? ==>
      r == Parsed(HealthStatusFromArray(ObjectOf(o.response.json).value, now))
    ensures o.Resp? && Successful(o.response.status) && ObjectOf(o.response.json).None? ==> r.Err? && r.error.Fault?
  {
    match o
    case ConnFail(cause) => Err(Unreachable(conn, cause))
    case Resp(resp) =>
      var data :- HandleResponse(resp, HealthContext);
      Parsed(HealthStatusFromArray(data, now))
  }

  /** `isHealthy()`: every storage error collapses to false; only a TypeError escapes. */
  function IsHealthyReply(conn: Connection, o: Outcome, now: string): (r: Result<bool, TypeError>)
    ensures r == Ok(true) <==> HealthReply(conn, o, now).Ok? && HealthReply(conn, o, now).value.status == "ok"
    ensures r.Err? <==> HealthReply(conn, o, now).Err? && HealthReply(conn, o, now).error.Fault?
    ensures o.ConnFail? ==> r == Ok(false)
  {
    match HealthReply(conn, o, now)
    case Ok(h) => Ok(h.IsHealthy())
    case Err(Storage(_)) => Ok(false)
    case Err(Fault(t)) => Err(t)
  }

  /** What `file_exists` and `is_readable` say about a local file, and its contents when readable. */
  datatype LocalFile = Missing | Unreadable | Readable(contents: Bytes)

  /** `upload($jobId, $filePath)`: a missing or unreadable file fails before any request. */
  function UploadReply(conn: Connection, jobId: string, filePath: string, file: LocalFile, o: Outcome)
    : (r: Result<UploadResult, Failure>)
    ensures !file.Readable? ==> r == Err(Storage(FileNotReadable(filePath)))
    ensures file.Readable? ==> r == UploadContentReply(conn, jobId, file.contents, o)
  {
    if !file.Readable? then Err(Storage(FileNotReadable(filePath)))
    else
      match o
      case ConnFail(cause) => Err(Unreachable(conn, cause))
      case Resp(resp) =>
        var data :- HandleResponse(resp, UploadContext);
        Parsed(UploadResultFromArray(data))
  }

  /** `uploadContent($jobId, $content)`. */
  function UploadContentReply(conn: Connection, jobId: string, content: Bytes, o: Outcome)
    : (r: Result<UploadResult, Failure>)
    ensures o.ConnFail? ==> r == Err(Storage(ConnectionFailed(conn.baseUrl, Some(o.cause))))
    ensures o.Resp? && o.response.status == 401 ==> r == Err(Storage(Unauthorized()))
    ensures o.Resp? && !Successful(o.response.status) && o.response.status != 401 ==>
      r == Err(Storage(FromResponse(o.response, UploadContext).value))
    ensures o.Resp? && Successful(o.response.status) && ObjectOf(o.response.json).Some? ==>
      r == Parsed(UploadResultFromArray(ObjectOf(o.response.json).value))
    ensures o.Resp? && Successful(o.response.status) && ObjectOf(o.response.json).None? ==> r.Err? && r.error.Fault?
  {
    match o
    case ConnFail(cause) => Err(Unreachable(conn, cause))
    case Resp(resp) =>
      var data :- HandleResponse(resp, UploadContext);
      Parsed(UploadResultFromArray(data))
  }

  /**
   * `download($jobId, $keep)`: a 2xx gives the body verbatim; 404 and 410 give
   * `notFound`/`fileDeleted` for the job; every other status, 401 included,
   * gives `fromResponse` with the context "Download failed".
   */
  function DownloadReply(conn: Connection, jobId: string, o: Outcome): (r: Result<Bytes, Failure>)
    ensures o.ConnFail? ==> r == Err(Storage(ConnectionFailed(conn.baseUrl, Some(o.cause))))
    ensures o.Resp? ==> (r.Ok? <==> Successful(o.response.status))
    ensures r.Ok? ==> o.Resp? && r.value == o.response.body
    ensures o.Resp? && o.response.status == 404 ==> r == Err(Storage(NotFound(jobId)))
    ensures o.Resp? && o.response.status == 410 ==> r == Err(Storage(FileDeleted(jobId)))
    ensures o.Resp? && !Successful(o.response.status) && o.response.status != 404 && o.response.status != 410 ==>
      r == Err(Storage(FromResponse(o.response, DownloadContext).value))
      && r.error.e.code == o.response.status && r.error.e.response == Some(o.response)
      && StartsWith(r.error.e.message, DownloadContext + ": ")
  {
    match o
    case ConnFail(cause) => Err(Unreachable(conn, cause))
    case Resp(resp) =>
      if Successful(resp.status) then Ok(resp.body)
      else if resp.status == 404 then Err(Storage(NotFound(jobId)))
      else if resp.status == 410 then Err(Storage(FileDeleted(jobId)))
      else Err(Storage(FromResponse(resp, DownloadContext).value))
  }

  /** `delete($jobId)`: true on a 2xx, never false; 404 gives `notFound`, other statuses "Delete failed". */
  function DeleteReply(conn: Connection, jobId: string, o: Outcome): (r: Result<bool, Failure>)
    ensures r.Ok? ==> r.value
    ensures r.Ok? <==> o.Resp? && Successful(o.response.status)
    ensures r.Err? ==> r.error.Storage?
    ensures o.ConnFail? ==> r == Err(Storage(ConnectionFailed(conn.baseUrl, Some(o.cause))))
    ensures o.Resp? && o.response.status == 404 ==> r == Err(Storage(NotFound(jobId)))
    ensures o.Resp? && !Successful(o.response.status) && o.response.status != 404 ==>
      r == Err(Storage(FromResponse(o.response, DeleteContext).value))
      && r.error.e.code == o.response.status && r.error.e.response == Some(o.response)
      && StartsWith(r.error.e.message, DeleteContext + ": ")
  {
    match o
    case ConnFail(cause) => Err(Unreachable(conn, cause))
    case Resp(resp) =>
      if Successful(resp.status) then Ok(true)
      else if resp.status == 404 then Err(Storage(NotFound(jobId)))
      else Err(Storage(FromResponse(resp, DeleteContext).value))
  }

  /** One element of the "files" array, parsed by FileInfo's fromArray; it must be an array. */
  function FileEntry(item: Json, now: Moment): Result<FileInfo, TypeError> {
    match item
    case JObj(fields) => FileInfoFromArray(fields, now)
    case JArr(_) => FileInfoFromArray(map[], now)
    case _ => Err(TypeError("list(): array $file"))
  }

  /** The "files" array mapped element by element, in order; the first bad element raises. */
  function FileEntries(items: seq<Json>, now: Moment): (r: Result<seq<FileInfo>, TypeError>)
    ensures r.Ok? <==> forall k :: 0 <= k < |items| ==> FileEntry(items[k], now).Ok?
    ensures r.Ok? ==> |r.value| == |items|
    ensures r.Ok? ==> forall k :: 0 <= k < |items| ==> r.value[k] == FileEntry(items[k], now).value
  {
    if items == [] then Ok([])
    else
      var first :- FileEntry(items[0], now);
      var rest :- FileEntries(items[1..], now);
      Ok([first] + rest)
  }

  /** The listing: the "files" array of the body (nothing when it is absent or null), each entry parsed into a FileInfo. */
  function FilesOf(data: map<string, Json>, now: Moment): (r: Result<seq<FileInfo>, TypeError>)
    ensures Lookup(data, "files").None? ==> r == Ok([])
    ensures Lookup(data, "files").Some? && data["files"].JArr? ==> r == FileEntries(data["files"].items, now)
  {
    match Lookup(data, "files")
    case None => Ok([])
    case Some(JArr(items)) => FileEntries(items, now)
    case Some(JObj(fields)) => if |fields| == 0 then Ok([]) else Err(TypeError("list(): files"))
    case Some(_) => Err(TypeError("list(): array $file"))
  }

  /** `list()`; `now` is the upload time given to entries that lack one. */
  function ListReply(conn: Connection, o: Outcome, now: Moment): (r: Result<seq<FileInfo>, Failure>)
    ensures o.ConnFail? ==> r == Err(Storage(ConnectionFailed(conn.baseUrl, Some(o.cause))))
    ensures o.Resp? && o.response.status == 401 ==> r == Err(Storage(Unauthorized()))
    ensures o.Resp? && !Successful(o.response.status) && o.response.status != 401 ==>
      r == Err(Storage(FromResponse(o.response, ListContext).value))
    ensures o.Resp? && Successful(o.response.status) && ObjectOf(o.response.json).Some? ==>
      r == Parsed(FilesOf(ObjectOf(o.response.json).value, now))
    ensures o.Resp? && Successful(o.response.status) && ObjectOf(o.response.json).None? ==> r.Err? && r.error.Fault?
    ensures o.Resp? && Successful(o.response.status) && o.response.json == JNull ==> r == Ok([])
  {
    match o
    case ConnFail(cause) => Err(Unreachable(conn, cause))
    case Resp(resp) =>
      var data :- HandleResponse(resp, ListContext);
      Parsed(FilesOf(data, now))
  }

  /** Whether some listed file has exactly this job id and is not deleted. */
  function ContainsAvailable(files: seq<FileInfo>, jobId: string): (b: bool)
    ensures b <==> exists k :: 0 <= k < |files| && files[k].jobId == jobId && files[k].IsAvailable()
  {
    if files == [] then false
    else (files[0].jobId == jobId && files[0].IsAvailable()) || ContainsAvailable(files[1..], jobId)
  }

  /**
   * `exists($jobId)`: true iff the listing has an entry with that id that is
   * not deleted. Every storage error, a connection failure included, gives
   * false; only a TypeError escapes.
   */
  function ExistsReply(conn: Connection, jobId: string, o: Outcome, now: Moment): (r: Result<bool, TypeError>)
    ensures r == Ok(true) <==>
      ListReply(conn, o, now).Ok? && ContainsAvailable(ListReply(conn, o, now).value, jobId)
    ensures r.Err? <==> ListReply(conn, o, now).Err? && ListReply(conn, o, now).error.Fault?
    ensures o.ConnFail? ==> r == Ok(false)
    ensures o.Resp? && !Successful(o.response.status) ==> r == Ok(false)
  {
    match ListReply(conn, o, now)
    case Ok(files) => Ok(ContainsAvailable(files, jobId))
    case Err(Storage(_)) => Ok(false)
    case Err(Fault(t)) => Err(t)
  }

  /** A listing whose entry for the id is marked deleted (and has no other entry) does not exist. */
  lemma DeletedEntryDoesNotExist(conn: Connection, jobId: string, o: Outcome, now: Moment)
    requires ListReply(conn, o, now).Ok?
    requires forall k :: 0 <= k < |ListReply(conn, o, now).value| && ListReply(conn, o, now).value[k].jobId == jobId
               ==> ListReply(conn, o, now).value[k].deleted
    ensures ExistsReply(conn, jobId, o, now) == Ok(false)
  {
  }

  // ---------------------------------------------------------------- the client object

  class SimpleStorageClient {
    var baseUrl: string
    var apiKey: string
    var options: TransportOptions
    const transport: Transport

    ghost predicate Valid()
      reads this
    {
      !EndsWithSlash(baseUrl)
    }

    /** The settings requests are built from. */
    function Conn(): Connection
      reads this
    {
      Connection(baseUrl, apiKey, options)
    }

    /** A client over already resolved settings. */
    constructor (conn: Connection, transport: Transport)
      requires !EndsWithSlash(conn.baseUrl)
      ensures Valid() && Conn() == conn && this.transport == transport
    {
      baseUrl, apiKey, options := conn.baseUrl, conn.apiKey, conn.options;
      this.transport := transport;
    }

    /**
     * Constructing a client from the given and the application configuration:
     * either a client whose settings are those Configure resolves, or the
     * TypeError of the first ill-typed setting.
     */
    static method Create(given: ClientOptions, app: ClientOptions, transport: Transport)
      returns (r: Result<SimpleStorageClient, TypeError>)
      ensures r.Ok? <==> Configure(given, app).Ok?
      ensures r.Err? ==> r.error == Configure(given, app).error
      ensures r.Ok? ==> fresh(r.value) && r.value.Valid() && r.value.Conn() == Configure(given, app).value
                        && r.value.transport == transport
    {
      var c := Configure(given, app);
      match c
      case Err(t) => r := Err(t);
      case Ok(conn) =>
        var client := new SimpleStorageClient(conn, transport);
        r := Ok(client);
    }

    /** `getBaseUrl()`. */
    function GetBaseUrl(): (url: string)
      reads this
      requires Valid()
      ensures url == baseUrl && !EndsWithSlash(url)
    {
      baseUrl
    }

    /** `setBaseUrl($baseUrl)`: stores the URL without its trailing slashes. */
    method SetBaseUrl(url: string)
      modifies this
      ensures Valid() && baseUrl == RTrimSlashes(url)
      ensures apiKey == old(apiKey) && options == old(options)
    {
      baseUrl := RTrimSlashes(url);
    }

    /** `setApiKey($apiKey)`: changes the key and nothing else. */
    method SetApiKey(key: string)
      modifies this
      ensures apiKey == key
      ensures baseUrl == old(baseUrl) && options == old(options)
    {
      apiKey := key;
    }

    method Health(now: string) returns (r: Result<HealthStatus, Failure>)
      modifies transport
      ensures transport.sent == old(transport.sent) + [HealthRequest(Conn())]
      ensures transport.replies == LaterReplies(old(transport.replies))
      ensures r == HealthReply(Conn(), NextReply(old(transport.replies)), now)
    {
      var o := transport.Send(HealthRequest(Conn()));
      r := HealthReply(Conn(), o, now);
    }

    method IsHealthy(now: string) returns (r: Result<bool, TypeError>)
      modifies transport
      ensures transport.sent == old(transport.sent) + [HealthRequest(Conn())]
      ensures transport.replies == LaterReplies(old(transport.replies))
      ensures r == IsHealthyReply(Conn(), NextReply(old(transport.replies)), now)
    {
      var h := Health(now);
      match h
      case Ok(status) => r := Ok(status.IsHealthy());
      case Err(Storage(_)) => r := Ok(false);
      case Err(Fault(t)) => r := Err(t);
    }

    method Upload(jobId: string, filePath: string, file: LocalFile) returns (r: Result<UploadResult, Failure>)
      modifies transport
      ensures !file.Readable? ==> unchanged(transport)
      ensures file.Readable? ==>
        transport.sent == old(transport.sent) + [UploadRequest(Conn(), jobId, filePath, file.contents)]
        && transport.replies == LaterReplies(old(transport.replies))
      ensures r == UploadReply(Conn(), jobId, filePath, file, NextReply(old(transport.replies)))
    {
      if !file.Readable? {
        return Err(Storage(FileNotReadable(filePath)));
      }
      var o := transport.Send(UploadRequest(Conn(), jobId, filePath, file.contents));
      r := UploadReply(Conn(), jobId, filePath, file, o);
    }

    method UploadContent(jobId: string, content: Bytes) returns (r: Result<UploadResult, Failure>)
      modifies transport
      ensures transport.sent == old(transport.sent) + [UploadContentRequest(Conn(), jobId, content)]
      ensures transport.replies == LaterReplies(old(transport.replies))
      ensures r == UploadContentReply(Conn(), jobId, content, NextReply(old(transport.replies)))
    {
      var o := transport.Send(UploadContentRequest(Conn(), jobId, content));
      r := UploadContentReply(Conn(), jobId, content, o);
    }

    method Download(jobId: string, keep: bool) returns (r: Result<Bytes, Failure>)
      modifies transport
      ensures transport.sent == old(transport.sent) + [DownloadRequest(Conn(), jobId, keep)]
      ensures transport.replies == LaterReplies(old(transport.replies))
      ensures r == DownloadReply(Conn(), jobId, NextReply(old(transport.replies)))
    {
      var o := transport.Send(DownloadRequest(Conn(), jobId, keep));
      r := DownloadReply(Conn(), jobId, o);
    }

    method Delete(jobId: string) returns (r: Result<bool, Failure>)
      modifies transport
      ensures transport.sent == old(transport.sent) + [DeleteRequest(Conn(), jobId)]
      ensures transport.replies == LaterReplies(old(transport.replies))
      ensures r == DeleteReply(Conn(), jobId, NextReply(old(transport.replies)))
    {
      var o := transport.Send(DeleteRequest(Conn(), jobId));
      r := DeleteReply(Conn(), jobId, o);
    }

    method List(now: Moment) returns (r: Result<seq<FileInfo>, Failure>)
      modifies transport
      ensures transport.sent == old(transport.sent) + [ListRequest(Conn())]
      ensures transport.replies == LaterReplies(old(transport.replies))
      ensures r == ListReply(Conn(), NextReply(old(transport.replies)), now)
    {
      var o := transport.Send(ListRequest(Conn()));
      r := ListReply(Conn(), o, now);
    }

    method Exists(jobId: string, now: Moment) returns (r: Result<bool, TypeError>)
      modifies transport
      ensures transport.sent == old(transport.sent) + [ListRequest(Conn())]
      ensures transport.replies == LaterReplies(old(transport.replies))
      ensures r == ExistsReply(Conn(), jobId, NextReply(old(transport.replies)), now)
    {
      var files := List(now);
      match files
      case Ok(fs) => r := Ok(ContainsAvailable(fs, jobId));
      case Err(Storage(_)) => r := Ok(false);
      case Err(Fault(t)) => r := Err(t);
    }
  }
}
