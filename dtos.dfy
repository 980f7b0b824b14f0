/**
 * The value objects built from server payloads: HealthStatus, UploadResult
 * and FileInfo. Each `fromArray` reads keys with null-coalescing defaults, so a missing
 * or null key never fails; a present value of the wrong type reaches a typed
 * constructor parameter and PHP (strict_types) raises a TypeError.
 */
module DataTransferObjects {
  import opened Wrappers
  import opened Php

  /** A Carbon instant, kept as its ISO-8601 text (date parsing is not modelled). */
  datatype Moment = Moment(iso: string)

  /** A string-typed field read with a null-coalescing default. */
  function StringField(data: map<string, Json>, key: string, default: string): (r: Result<string, TypeError>)
    ensures Lookup(data, key).None? ==> r == Ok(default)
    ensures Lookup(data, key).Some? ==> (r.Ok? <==> data[key].JStr?)
    ensures r.Ok? && Lookup(data, key).Some? ==> r.value == data[key].s
  {
    match Lookup(data, key)
    case None => Ok(default)
    case Some(JStr(s)) => Ok(s)
    case Some(_) => Err(TypeError(key))
  }

  /** The key is absent, null, or holds a string: reading it as a string cannot fail. */
  predicate StringOrAbsent(data: map<string, Json>, key: string) {
    Lookup(data, key).None? || data[key].JStr?
  }

  /** An integer field: the integer cast of the value, or of 0 when it is absent or null. */
  function IntField(data: map<string, Json>, key: string): int {
    ToInt(Lookup(data, key).GetOr(JInt(0)))
  }

  // ---------------------------------------------------------------- HealthStatus

  const Unknown: string := "unknown"

  datatype HealthStatus = HealthStatus(status: string, service: string, timestamp: string) {
    /** `isHealthy()`. */
    predicate IsHealthy()
      ensures IsHealthy() <==> ToArray()["status"] == JStr("ok")
    {
      status == "ok"
    }

    /** `toArray()`. */
    function ToArray(): (m: map<string, Json>)
      ensures m.Keys == {"status", "service", "timestamp"}
    {
      map["status" := JStr(status), "service" := JStr(service), "timestamp" := JStr(timestamp)]
    }
  }

  /** HealthStatus's fromArray; `now` is the ISO text of the current time. */
  function HealthStatusFromArray(data: map<string, Json>, now: string): (r: Result<HealthStatus, TypeError>)
    ensures r.Ok? <==> StringOrAbsent(data, "status") && StringOrAbsent(data, "service")
                       && StringOrAbsent(data, "timestamp")
    ensures r.Ok? ==> Ok(r.value.status) == StringField(data, "status", Unknown)
    ensures r.Ok? ==> Ok(r.value.service) == StringField(data, "service", Unknown)
    ensures r.Ok? ==> Ok(r.value.timestamp) == StringField(data, "timestamp", now)
    ensures r.Ok? ==> (r.value.IsHealthy() <==> Lookup(data, "status") == Some(JStr("ok")))
    ensures r.Ok? && Lookup(data, "status").None? ==> r.value.status == Unknown && !r.value.IsHealthy()
    ensures r.Ok? && Lookup(data, "timestamp").None? ==> r.value.timestamp == now
  {
    var status :- StringField(data, "status", Unknown);
    var service :- StringField(data, "service", Unknown);
    var timestamp :- StringField(data, "timestamp", now);
    Ok(HealthStatus(status, service, timestamp))
  }

  lemma HealthStatusDefaults(now: string)
    ensures HealthStatusFromArray(map[], now) == Ok(HealthStatus(Unknown, Unknown, now))
    ensures !HealthStatusFromArray(map[], now).value.IsHealthy()
  {
  }

  /** Serialising and parsing back gives the same status, whatever the clock says. */
  lemma HealthStatusRoundTrip(h: HealthStatus, now: string)
    ensures HealthStatusFromArray(h.ToArray(), now) == Ok(h)
  {
  }

  // ---------------------------------------------------------------- UploadResult

  const Uploaded: string := "uploaded"

  datatype UploadResult = UploadResult(status: string, jobId: string, fileSize: int, downloadUrl: string) {
    /** `isSuccessful()`. */
    predicate IsSuccessful()
      ensures IsSuccessful() <==> ToArray()["status"] == JStr(Uploaded)
    {
      status == Uploaded
    }

    /** `toArray()`. */
    function ToArray(): (m: map<string, Json>)
      ensures m.Keys == {"status", "job_id", "file_size", "download_url"}
    {
      map["status" := JStr(status), "job_id" := JStr(jobId), "file_size" := JInt(fileSize),
          "download_url" := JStr(downloadUrl)]
    }
  }

  /** UploadResult's fromArray. */
  function UploadResultFromArray(data: map<string, Json>): (r: Result<UploadResult, TypeError>)
    ensures r.Ok? <==> StringOrAbsent(data, "status") && StringOrAbsent(data, "job_id")
                       && StringOrAbsent(data, "download_url")
    ensures r.Ok? ==> Ok(r.value.status) == StringField(data, "status", Unknown)
    ensures r.Ok? ==> Ok(r.value.jobId) == StringField(data, "job_id", "")
    ensures r.Ok? ==> Ok(r.value.downloadUrl) == StringField(data, "download_url", "")
    ensures r.Ok? ==> r.value.fileSize == IntField(data, "file_size")
    ensures r.Ok? ==> (r.value.IsSuccessful() <==> Lookup(data, "status") == Some(JStr(Uploaded)))
    ensures r.Ok? && Lookup(data, "status").None? ==> r.value.status == Unknown && !r.value.IsSuccessful()
  {
    var status :- StringField(data, "status", Unknown);
    var jobId :- StringField(data, "job_id", "");
    var downloadUrl :- StringField(data, "download_url", "");
    Ok(UploadResult(status, jobId, IntField(data, "file_size"), downloadUrl))
  }

  lemma UploadResultDefaults()
    ensures UploadResultFromArray(map[]) == Ok(UploadResult(Unknown, "", 0, ""))
    ensures !UploadResultFromArray(map[]).value.IsSuccessful()
  {
  }

  lemma UploadResultRoundTrip(u: UploadResult)
    ensures UploadResultFromArray(u.ToArray()) == Ok(u)
  {
  }

  /** A file size the server sends as a decimal string is read as that number. */
  lemma UploadResultNumericStringSize(data: map<string, Json>, n: int)
    requires "file_size" in data && data["file_size"] == JStr(IntToString(n))
    requires UploadResultFromArray(data).Ok?
    ensures UploadResultFromArray(data).value.fileSize == n
  {
    StrToIntOfIntToString(n);
  }

  // ---------------------------------------------------------------- FileInfo

  datatype FileInfo = FileInfo(
    jobId: string, fileSize: int, uploadedAt: Moment, downloadedAt: Option<Moment>, deleted: bool)
  {
    /** `isAvailable()`. */
    predicate IsAvailable()
      ensures IsAvailable() <==> ToArray()["deleted"] == JBool(false)
    {
      !deleted
    }

    /** `hasBeenDownloaded()`. */
    predicate HasBeenDownloaded()
      ensures HasBeenDownloaded() <==> ToArray()["downloaded_at"] != JNull
    {
      downloadedAt.Some?
    }

    /** `toArray()`; a missing download time is emitted as null. */
    function ToArray(): (m: map<string, Json>)
      ensures m.Keys == {"job_id", "file_size", "uploaded_at", "downloaded_at", "deleted"}
    {
      map["job_id" := JStr(jobId), "file_size" := JInt(fileSize), "uploaded_at" := JStr(uploadedAt.iso),
          "downloaded_at" := (match downloadedAt case Some(t) => JStr(t.iso) case None => JNull),
          "deleted" := JBool(deleted)]
    }
  }

  /**
   * A timestamp field handed to the date parser. Only a string is accepted
   * here; the parser would also read an integer as Unix seconds, which this
   * model does not represent.
   */
  function MomentField(v: Json, key: string): (r: Result<Moment, TypeError>)
    ensures r.Ok? <==> v.JStr?
  {
    if v.JStr? then Ok(Moment(v.s)) else Err(TypeError(key))
  }

  /** FileInfo's fromArray; `now` is the current time used when "uploaded_at" is missing. */
  function FileInfoFromArray(data: map<string, Json>, now: Moment): (r: Result<FileInfo, TypeError>)
    ensures r.Ok? <==> StringOrAbsent(data, "job_id") && StringOrAbsent(data, "uploaded_at")
                       && StringOrAbsent(data, "downloaded_at")
    ensures r.Ok? ==> Ok(r.value.jobId) == StringField(data, "job_id", "")
    ensures r.Ok? ==> r.value.fileSize == IntField(data, "file_size")
    ensures r.Ok? ==> r.value.deleted == ToBool(Lookup(data, "deleted").GetOr(JBool(false)))
    ensures r.Ok? ==> (r.value.IsAvailable() <==> !ToBool(Lookup(data, "deleted").GetOr(JBool(false))))
    ensures r.Ok? && Lookup(data, "uploaded_at").Some? ==> r.value.uploadedAt == Moment(data["uploaded_at"].s)
    ensures r.Ok? && Lookup(data, "downloaded_at").Some? ==>
      r.value.downloadedAt == Some(Moment(data["downloaded_at"].s))
    ensures r.Ok? ==> (r.value.HasBeenDownloaded() <==> Lookup(data, "downloaded_at").Some?)
    ensures r.Ok? && Lookup(data, "uploaded_at").None? ==> r.value.uploadedAt == now
  {
    var jobId :- StringField(data, "job_id", "");
    var uploadedAt :- match Lookup(data, "uploaded_at")
                      case None => Ok(now)
                      case Some(v) => MomentField(v, "uploaded_at");
    var downloadedAt :- match Lookup(data, "downloaded_at")
                        case None => Ok(None)
                        case Some(v) => (var t :- MomentField(v, "downloaded_at"); Ok(Some(t)));
    var deleted := ToBool(Lookup(data, "deleted").GetOr(JBool(false)));
    Ok(FileInfo(jobId, IntField(data, "file_size"), uploadedAt, downloadedAt, deleted))
  }

  lemma FileInfoDefaults(now: Moment)
    ensures FileInfoFromArray(map[], now) == Ok(FileInfo("", 0, now, None, false))
    ensures FileInfoFromArray(map[], now).value.IsAvailable()
    ensures !FileInfoFromArray(map[], now).value.HasBeenDownloaded()
  {
  }

  /** The job id, size, deleted flag and downloaded-or-not survive toArray then fromArray. */
  lemma FileInfoRoundTrip(f: FileInfo, now: Moment)
    ensures var r := FileInfoFromArray(f.ToArray(), now);
            r.Ok? && r.value.jobId == f.jobId && r.value.fileSize == f.fileSize
            && r.value.deleted == f.deleted && r.value.HasBeenDownloaded() == f.HasBeenDownloaded()
  {
  }
}
