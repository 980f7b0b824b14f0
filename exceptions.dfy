/**
 * The error taxonomy: SimpleStorageException, its static factories, and the
 * four subclasses ConnectionFailedException, NotFoundException,
 * FileGoneException and UnauthorizedException.
 *
 * Every error is a StorageException value; `kind` records which class was
 * instantiated (the factories all build the base class) and the fields a
 * subclass adds (its target URL or job id).
 */
module Exceptions {
  import opened Wrappers
  import opened Php
  import opened Http

  datatype Kind =
    | Base
    | ConnectionFailedException(targetUrl: string)
    | NotFoundException(jobId: string)
    | FileGoneException(jobId: string)
    | UnauthorizedException

  /** An exception: its class, message, code, previous exception and the HTTP response it came from. */
  datatype StorageException = StorageException(
    kind: Kind, message: string, code: int, previous: Option<Cause>, response: Option<Response>)

  const DefaultMessage: string := "Simple Storage operation failed"
  const UnknownError: string := "Unknown error"
  const ConnectPrefix: string := "Failed to connect to Simple Storage Server at "
  const UnauthorizedMessage: string := "Invalid or missing API key"
  const NotFoundPrefix: string := "Job not found: "
  const DeletedPrefix: string := "File already deleted: "
  const NotReadablePrefix: string := "File not readable: "
  const NotWritablePrefix: string := "Cannot write to path: "

  /** `new SimpleStorageException()` with every argument left at its default. */
  function NewDefault(): (e: StorageException)
    ensures e.message == DefaultMessage && e.code == 0
    ensures e.previous == None && e.response == None && e.kind == Base
  {
    StorageException(Base, DefaultMessage, 0, None, None)
  }

  /** `$response->json()['error'] ?? null`: the server's error text, if the body carries one. */
  function ErrorField(body: Json): Option<Json> {
    match body
    case JObj(fields) => Lookup(fields, "error")
    case _ => None
  }

  /**
   * `fromResponse($response, $context)`. The message is "context: error" for a
   * truthy context and the bare error otherwise; a missing error gives
   * "Unknown error". With a falsy context a non-string error reaches the
   * string-typed message parameter and PHP raises a TypeError.
   */
  function FromResponse(resp: Response, context: string): (r: Result<StorageException, TypeError>)
    ensures Truthy(context) ==>
      r.Ok? && r.value.message == context + ": " + Interpolate(ErrorField(resp.json).GetOr(JStr(UnknownError)))
    ensures r.Ok? <==> Truthy(context) || ErrorField(resp.json).None? || ErrorField(resp.json).value.JStr?
    ensures r.Ok? ==> r.value.kind == Base && r.value.code == resp.status
    ensures r.Ok? ==> r.value.response == Some(resp) && r.value.previous == None
    ensures ErrorField(resp.json).None? ==>
      r.Ok? && r.value.message == if Truthy(context) then context + ": " + UnknownError else UnknownError
    ensures ErrorField(resp.json).Some? && ErrorField(resp.json).value.JStr? ==>
      var text := ErrorField(resp.json).value.s;
      r.Ok? && r.value.message == if Truthy(context) then context + ": " + text else text
  {
    var error := ErrorField(resp.json).GetOr(JStr(UnknownError));
    if Truthy(context) then
      Ok(StorageException(Base, context + ": " + Interpolate(error), resp.status, None, Some(resp)))
    else if error.JStr? then
      Ok(StorageException(Base, error.s, resp.status, None, Some(resp)))
    else
      Err(TypeError("SimpleStorageException::__construct(message)"))
  }

  /** `connectionFailed($url, $previous)`. */
  function ConnectionFailed(url: string, previous: Option<Cause>): (e: StorageException)
    ensures e.code == 0 && e.previous == previous && e.response == None && e.kind == Base
    ensures StartsWith(e.message, ConnectPrefix) && e.message[|ConnectPrefix|..] == url
  {
    StorageException(Base, ConnectPrefix + url, 0, previous, None)
  }

  /** `unauthorized()`. */
  function Unauthorized(): (e: StorageException)
    ensures e.code == 401 && e.message == UnauthorizedMessage
    ensures e.previous == None && e.response == None && e.kind == Base
  {
    StorageException(Base, UnauthorizedMessage, 401, None, None)
  }

  /** `notFound($jobId)`. */
  function NotFound(jobId: string): (e: StorageException)
    ensures e.code == 404 && e.previous == None && e.response == None && e.kind == Base
    ensures StartsWith(e.message, NotFoundPrefix) && e.message[|NotFoundPrefix|..] == jobId
  {
    StorageException(Base, NotFoundPrefix + jobId, 404, None, None)
  }

  /** `fileDeleted($jobId)`. */
  function FileDeleted(jobId: string): (e: StorageException)
    ensures e.code == 410 && e.previous == None && e.response == None && e.kind == Base
    ensures StartsWith(e.message, DeletedPrefix) && e.message[|DeletedPrefix|..] == jobId
  {
    StorageException(Base, DeletedPrefix + jobId, 410, None, None)
  }

  /** `fileNotReadable($path)`. */
  function FileNotReadable(path: string): (e: StorageException)
    ensures e.code == 0 && e.previous == None && e.response == None && e.kind == Base
    ensures StartsWith(e.message, NotReadablePrefix) && e.message[|NotReadablePrefix|..] == path
  {
    StorageException(Base, NotReadablePrefix + path, 0, None, None)
  }

  /** `fileNotWritable($path)`. */
  function FileNotWritable(path: string): (e: StorageException)
    ensures e.code == 0 && e.previous == None && e.response == None && e.kind == Base
    ensures StartsWith(e.message, NotWritablePrefix) && e.message[|NotWritablePrefix|..] == path
  {
    StorageException(Base, NotWritablePrefix + path, 0, None, None)
  }

  /** `new ConnectionFailedException($url, $previous)`. */
  function NewConnectionFailedException(url: string, previous: Option<Cause>): (e: StorageException)
    ensures e.kind == ConnectionFailedException(url)
    ensures e.code == 0 && e.previous == previous && e.response == None
    ensures StartsWith(e.message, ConnectPrefix) && e.message[|ConnectPrefix|..] == url
  {
    StorageException(ConnectionFailedException(url), ConnectPrefix + url, 0, previous, None)
  }

  /** `getTargetUrl()`. */
  function TargetUrl(e: StorageException): string
    requires e.kind.ConnectionFailedException?
  {
    e.kind.targetUrl
  }

  /** `new NotFoundException($jobId)`. */
  function NewNotFoundException(jobId: string): (e: StorageException)
    ensures e.kind == NotFoundException(jobId)
    ensures e.code == 404 && e.previous == None && e.response == None
    ensures StartsWith(e.message, NotFoundPrefix) && e.message[|NotFoundPrefix|..] == jobId
  {
    StorageException(NotFoundException(jobId), NotFoundPrefix + jobId, 404, None, None)
  }

  /** `new FileGoneException($jobId)`. */
  function NewFileGoneException(jobId: string): (e: StorageException)
    ensures e.kind == FileGoneException(jobId)
    ensures e.code == 410 && e.previous == None && e.response == None
    ensures StartsWith(e.message, DeletedPrefix) && e.message[|DeletedPrefix|..] == jobId
  {
    StorageException(FileGoneException(jobId), DeletedPrefix + jobId, 410, None, None)
  }

  /** `getJobId()` of a NotFoundException or a FileGoneException. */
  function JobId(e: StorageException): string
    requires e.kind.NotFoundException? || e.kind.FileGoneException?
  {
    e.kind.jobId
  }

  /** `new UnauthorizedException()`. */
  function NewUnauthorizedException(): (e: StorageException)
    ensures e.kind == UnauthorizedException
    ensures e.code == 401 && e.message == UnauthorizedMessage
    ensures e.previous == None && e.response == None
  {
    StorageException(UnauthorizedException, UnauthorizedMessage, 401, None, None)
  }

  /** Everything but the class: what a caller catching SimpleStorageException can observe. */
  predicate SameObservable(a: StorageException, b: StorageException) {
    a.message == b.message && a.code == b.code && a.previous == b.previous && a.response == b.response
  }

  /**
   * Each subclass is built exactly like its factory, and its getter returns
   * the constructor's argument.
   */
  lemma SubclassesMatchFactories(url: string, previous: Option<Cause>, jobId: string)
    ensures SameObservable(NewConnectionFailedException(url, previous), ConnectionFailed(url, previous))
    ensures TargetUrl(NewConnectionFailedException(url, previous)) == url
    ensures SameObservable(NewNotFoundException(jobId), NotFound(jobId))
    ensures JobId(NewNotFoundException(jobId)) == jobId
    ensures SameObservable(NewFileGoneException(jobId), FileDeleted(jobId))
    ensures JobId(NewFileGoneException(jobId)) == jobId
    ensures SameObservable(NewUnauthorizedException(), Unauthorized())
  {
  }

  /**
   * The split callers of an existence check rely on: a 404 or a 410 says the
   * object is absent; a connection failure or a 401 says nothing about it.
   */
  predicate SaysAbsent(e: StorageException) {
    e.code == 404 || e.code == 410
  }

  lemma AbsenceIsDistinguishable(url: string, previous: Option<Cause>, jobId: string)
    ensures SaysAbsent(NotFound(jobId)) && SaysAbsent(FileDeleted(jobId))
    ensures SaysAbsent(NewNotFoundException(jobId)) && SaysAbsent(NewFileGoneException(jobId))
    ensures !SaysAbsent(ConnectionFailed(url, previous)) && !SaysAbsent(Unauthorized())
    ensures !SaysAbsent(NewConnectionFailedException(url, previous)) && !SaysAbsent(NewUnauthorizedException())
  {
  }

  /** The message of a jobId-carrying factory determines the jobId. */
  lemma JobIdRecoverable(a: string, b: string)
    ensures NotFound(a).message == NotFound(b).message ==> a == b
    ensures FileDeleted(a).message == FileDeleted(b).message ==> a == b
    ensures NotFound(a) != FileDeleted(b)
  {
  }
}
