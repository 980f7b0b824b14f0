/**
 * The HTTP boundary of the client. The transport library itself (retries,
 * timeouts, TLS) is not modelled: a request goes out and one Outcome comes
 * back, either a connection failure or a response with a status and a body.
 */
module Http {
  import opened Wrappers
  import opened Php

  newtype byte = x: int | 0 <= x < 256

  /** PHP strings carrying file contents are byte strings. */
  type Bytes = seq<byte>

  /** The transport's ConnectionException, kept only as the "previous" of a storage error. */
  datatype Cause = Cause(message: string)

  /** A received response: its status, its body decoded as JSON (JNull when it is not JSON), and its raw bytes. */
  datatype Response = Response(status: int, json: Json, body: Bytes)

  /** What the transport delivers for one request. */
  datatype Outcome = ConnFail(cause: Cause) | Resp(response: Response)

  /** Laravel's `Response::successful()`: a 2xx status. */
  predicate Successful(status: int) {
    200 <= status < 300
  }

  datatype Verb = Get | Post | Delete

  /** What a request carries besides its path. */
  datatype Body =
    | NoBody
      /** A multipart upload: the file attached under "file" with its file name, the job id as a form field. */
    | Multipart(jobId: string, file: Bytes, fileName: string)
      /** A raw upload: the job id in the X-Job-Id header, the bytes as the body. */
    | Raw(jobIdHeader: string, contentType: string, content: Bytes)

  /** The transport settings every request is configured with. */
  datatype TransportOptions = TransportOptions(
    timeout: int, connectTimeout: int, retryTimes: int, retrySleepMs: int, verifySsl: bool)

  /** One request as the client configures it; `bearer` is the token attached, if any. */
  datatype Request = Request(
    baseUrl: string, options: TransportOptions, bearer: Option<string>,
    verb: Verb, path: string, body: Body)

  /** The answer of a transport that has no scripted reply left. */
  const NoReply: Outcome := ConnFail(Cause("no reply"))

  function NextReply(replies: seq<Outcome>): Outcome {
    if replies == [] then NoReply else replies[0]
  }

  function LaterReplies(replies: seq<Outcome>): (rest: seq<Outcome>)
    ensures |rest| == if replies == [] then 0 else |replies| - 1
  {
    if replies == [] then [] else replies[1..]
  }

  /** The replies left after `n` requests have been answered. */
  function Skip(replies: seq<Outcome>, n: nat): seq<Outcome> {
    if n == 0 then replies else Skip(LaterReplies(replies), n - 1)
  }

  lemma {:induction false} SkipLater(replies: seq<Outcome>, n: nat)
    ensures Skip(replies, n + 1) == LaterReplies(Skip(replies, n))
  {
    if n > 0 {
      SkipLater(LaterReplies(replies), n - 1);
    }
  }

  /**
   * The transport seen from the client: the outcomes the remote side will
   * give, in order, and the requests sent so far.
   */
  class Transport {
    var replies: seq<Outcome>
    var sent: seq<Request>

    constructor (replies: seq<Outcome>)
      ensures this.replies == replies && sent == []
    {
      this.replies := replies;
      sent := [];
    }

    method Send(req: Request) returns (o: Outcome)
      modifies this
      ensures sent == old(sent) + [req]
      ensures o == NextReply(old(replies)) && replies == LaterReplies(old(replies))
    {
      o := NextReply(replies);
      replies := LaterReplies(replies);
      sent := sent + [req];
    }
  }
}
