/**
 * The error-recovery middleware (src/server/recover_error.rs): it turns an
 * HTTP/2 error of the wrapped service into a successful response that
 * carries only a gRPC status, maps HTTP/2 error codes to gRPC codes by a
 * fixed table, and wraps bodies so that a recovered response has an empty
 * one.
 *
 * Library behaviour enters as parameters: `Status::try_from_error` as a
 * function, the wrapped body's `http_body::Body` methods as `BodyOps`, the
 * wrapped service as one poll of its readiness and of its response.
 */
module Recover {
  import opened Wrappers
  import opened Externals
  import opened Errors
  import Grpc
  import P = OptionPins

  // ---------------------------------------------------------------------
  // The HTTP/2 to gRPC code table

  /** The HTTP/2 error codes the table sends to `Internal`. */
  const INTERNAL_REASONS: set<U32> :=
    {NO_ERROR, PROTOCOL_ERROR, INTERNAL_ERROR, FLOW_CONTROL_ERROR, SETTINGS_TIMEOUT,
     COMPRESSION_ERROR, CONNECT_ERROR}

  /** Every HTTP/2 error code the table names. */
  const NAMED_REASONS: set<U32> :=
    INTERNAL_REASONS + {REFUSED_STREAM, CANCEL, ENHANCE_YOUR_CALM, INADEQUATE_SECURITY}

  /** The code chosen for an h2 error with the given reason (`h2::Error::reason`). */
  function CodeForReason(reason: Option<U32>): (c: Grpc.Code)
    ensures c == Grpc.Internal <==> reason.Some? && reason.value in INTERNAL_REASONS
    ensures c == Grpc.Unavailable <==> reason == Some(REFUSED_STREAM)
    ensures c == Grpc.Cancelled <==> reason == Some(CANCEL)
    ensures c == Grpc.ResourceExhausted <==> reason == Some(ENHANCE_YOUR_CALM)
    ensures c == Grpc.PermissionDenied <==> reason == Some(INADEQUATE_SECURITY)
    ensures c == Grpc.Unknown <==> reason.None? || reason.value !in NAMED_REASONS
  {
    match reason
    case None => Grpc.Unknown
    case Some(r) =>
      if r == NO_ERROR || r == PROTOCOL_ERROR || r == INTERNAL_ERROR || r == FLOW_CONTROL_ERROR
         || r == SETTINGS_TIMEOUT || r == COMPRESSION_ERROR || r == CONNECT_ERROR
      then Grpc.Internal
      else if r == REFUSED_STREAM then Grpc.Unavailable
      else if r == CANCEL then Grpc.Cancelled
      else if r == ENHANCE_YOUR_CALM then Grpc.ResourceExhausted
      else if r == INADEQUATE_SECURITY then Grpc.PermissionDenied
      else Grpc.Unknown
  }

  /**
   * The codes of RFC 7540 section 7 that the table does not name, among them
   * FRAME_SIZE_ERROR, come out as `Unknown`.
   */
  lemma UnnamedReasonsAreUnknown()
    ensures CodeForReason(Some(STREAM_CLOSED)) == Grpc.Unknown
    ensures CodeForReason(Some(FRAME_SIZE_ERROR)) == Grpc.Unknown
    ensures CodeForReason(Some(HTTP_1_1_REQUIRED)) == Grpc.Unknown
    ensures CodeForReason(None) == Grpc.Unknown
  {
  }

  const H2_MESSAGE_PREFIX: string := "h2 protocol error: "

  /** `Status::try_from_error` of the library, as a parameter. */
  type TryFromError = BoxError -> Result<Grpc.Status, BoxError>

  /** The library function gives back the error it was handed when it finds no status. */
  ghost predicate ReturnsOriginalOnFailure(tryFromError: TryFromError) {
    forall e :: tryFromError(e).Err? ==> tryFromError(e).error == e
  }

  /**
   * `try_status_from_error`: an h2 error always becomes a status from the
   * table, with the h2 error as its source; anything else is the library's
   * to decide.
   */
  function TryStatusFromError(err: BoxError, tryFromError: TryFromError): (r: Result<Grpc.Status, BoxError>)
    ensures err.H2? ==> r.Ok?
    ensures err.H2? ==> r.value.code == CodeForReason(err.h2.reason)
                        && r.value.message == H2_MESSAGE_PREFIX + err.h2.description
                        && r.value.source == Some(err)
    ensures !err.H2? ==> r == tryFromError(err)
  {
    match err
    case H2(h2) =>
      var status := Grpc.NewStatus(CodeForReason(h2.reason), H2_MESSAGE_PREFIX + h2.description);
      Ok(status.(source := Some(H2(h2))))
    case _ => tryFromError(err)
  }

  // ---------------------------------------------------------------------
  // Bodies

  type Bytes = seq<byte>

  /** One poll of `poll_data`: pending, the end, or a data frame or error. */
  type DataPoll = Poll<Option<Result<Bytes, BoxError>>>

  /** One poll of `poll_trailers`. */
  type TrailersPoll = Poll<Result<Option<Grpc.HeaderMap>, BoxError>>

  /**
   * The `http_body::Body` methods of a wrapped body type `B`; the two polls
   * return the body's state after the call.
   */
  datatype BodyOps<!B> = BodyOps(
    pollData: B -> (DataPoll, B),
    pollTrailers: B -> (TrailersPoll, B),
    isEndStream: B -> bool)

  /** `MaybeEmptyBody`: a wrapped body, or none at all. */
  datatype MaybeEmptyBody<B> = MaybeEmptyBody(inner: P.OptionPin<B>) {

    /** `poll_data`: delegated to a full body; an empty one is at its end. */
    function PollData(ops: BodyOps<B>): (r: (DataPoll, MaybeEmptyBody<B>))
      ensures inner.None? ==> r.0 == Ready(None) && r.1 == this
      ensures inner.Some? ==> r.0 == ops.pollData(inner.pinned).0
                              && r.1 == Full(ops.pollData(inner.pinned).1)
    {
      match inner
      case Some(b) =>
        var (p, b') := ops.pollData(b);
        (p, Full(b'))
      case None => (Ready(None), this)
    }

    /** `poll_trailers`: delegated to a full body; an empty one has none. */
    function PollTrailers(ops: BodyOps<B>): (r: (TrailersPoll, MaybeEmptyBody<B>))
      ensures inner.None? ==> r.0 == Ready(Ok(None)) && r.1 == this
      ensures inner.Some? ==> r.0 == ops.pollTrailers(inner.pinned).0
                              && r.1 == Full(ops.pollTrailers(inner.pinned).1)
    {
      match inner
      case Some(b) =>
        var (p, b') := ops.pollTrailers(b);
        (p, Full(b'))
      case None => (Ready(Ok(None)), this)
    }

    /** `is_end_stream`: delegated to a full body; an empty one is always at its end. */
    function IsEndStream(ops: BodyOps<B>): (r: bool)
      ensures inner.None? ==> r
      ensures inner.Some? ==> r == ops.isEndStream(inner.pinned)
    {
      match inner
      case Some(b) => ops.isEndStream(b)
      case None => true
    }
  }

  /** `MaybeEmptyBody::full`. */
  function Full<B>(b: B): (r: MaybeEmptyBody<B>)
    ensures r.inner.Some? && r.inner.pinned == b
  {
    MaybeEmptyBody(P.Some(b))
  }

  /** `MaybeEmptyBody::empty`. */
  function Empty<B>(): (r: MaybeEmptyBody<B>)
    ensures r.inner.None?
  {
    MaybeEmptyBody(P.None)
  }

  /** The results of polling `poll_data` `n` times in a row on a wrapped body. */
  function DataPolls<B>(m: MaybeEmptyBody<B>, ops: BodyOps<B>, n: nat): seq<DataPoll>
    decreases n
  {
    if n == 0 then [] else
      var (p, m') := m.PollData(ops);
      [p] + DataPolls(m', ops, n - 1)
  }

  /** The results of polling `poll_data` `n` times in a row on the body itself. */
  function InnerDataPolls<B>(b: B, ops: BodyOps<B>, n: nat): seq<DataPoll>
    decreases n
  {
    if n == 0 then [] else
      var (p, b') := ops.pollData(b);
      [p] + InnerDataPolls(b', ops, n - 1)
  }

  /** A full body yields, poll for poll, exactly what the wrapped body yields. */
  lemma {:induction false} FullBodyPassesThrough<B>(b: B, ops: BodyOps<B>, n: nat)
    ensures DataPolls(Full(b), ops, n) == InnerDataPolls(b, ops, n)
  {
    if n > 0 {
      FullBodyPassesThrough(ops.pollData(b).1, ops, n - 1);
    }
  }

  /** An empty body answers every poll with the end of the stream. */
  lemma {:induction false} EmptyBodyIsOver<B>(ops: BodyOps<B>, n: nat)
    ensures |DataPolls(Empty(), ops, n)| == n
    ensures forall i :: 0 <= i < n ==> DataPolls(Empty(), ops, n)[i] == Ready(None)
  {
    if n > 0 {
      EmptyBodyIsOver(ops, n - 1);
    }
  }

  // ---------------------------------------------------------------------
  // Responses

  /** The head of an HTTP response. */
  datatype Parts = Parts(status: nat, headers: Grpc.HeaderMap)

  /** `http::Response<B>`. */
  datatype Response<B> = Response(parts: Parts, body: B)

  /** `Response::new`: HTTP 200 and no headers. */
  function NewResponse<B>(body: B): Response<B> {
    Response(Parts(200, map[]), body)
  }

  /** The response built for a recovered status: HTTP 200, status headers, empty body. */
  function StatusResponse<B>(status: Grpc.Status): (r: Response<MaybeEmptyBody<B>>)
    ensures r.parts.status == 200 && r.body == Empty()
    ensures r.parts.headers == Grpc.AddHeader(status, map[])
  {
    var res := NewResponse(Empty());
    res.(parts := res.parts.(headers := Grpc.AddHeader(status, res.parts.headers)))
  }

  /** `ResponseFuture::poll`, given one poll of the wrapped future. */
  function PollResponse<B>(inner: Poll<Result<Response<B>, BoxError>>, tryFromError: TryFromError)
    : (r: Poll<Result<Response<MaybeEmptyBody<B>>, BoxError>>)
    ensures r.Pending? <==> inner.Pending?
    ensures inner.Ready? && inner.value.Ok? ==>
              r == Ready(Ok(Response(inner.value.value.parts, Full(inner.value.value.body))))
    ensures inner.Ready? && inner.value.Err? && TryStatusFromError(inner.value.error, tryFromError).Ok? ==>
              r == Ready(Ok(StatusResponse(TryStatusFromError(inner.value.error, tryFromError).value)))
    ensures inner.Ready? && inner.value.Err? && TryStatusFromError(inner.value.error, tryFromError).Err? ==>
              r == Ready(Err(TryStatusFromError(inner.value.error, tryFromError).error))
  {
    match inner
    case Pending => Pending
    case Ready(Ok(response)) => Ready(Ok(Response(response.parts, Full(response.body))))
    case Ready(Err(err)) =>
      match TryStatusFromError(err, tryFromError)
      case Ok(status) => Ready(Ok(StatusResponse(status)))
      case Err(e) => Ready(Err(e))
  }

  /**
   * Every h2 error becomes a successful response: HTTP 200, an empty body,
   * and a `grpc-status` trailer from the table with the h2 message.
   */
  lemma H2ErrorsBecomeStatusResponses<B>(h2: H2Error, tryFromError: TryFromError)
    ensures var r := PollResponse<B>(Ready(Err(H2(h2))), tryFromError);
            && r.Ready? && r.value.Ok?
            && r.value.value.parts.status == 200
            && r.value.value.body == Empty()
            && r.value.value.parts.headers[Grpc.GRPC_STATUS] == Grpc.Decimal(CodeForReason(h2.reason).Value())
            && r.value.value.parts.headers[Grpc.GRPC_MESSAGE] == H2_MESSAGE_PREFIX + h2.description
  {
    var status := TryStatusFromError(H2(h2), tryFromError).value;
    assert status.message != [] by {
      assert status.message[0] == H2_MESSAGE_PREFIX[0];
    }
  }

  /**
   * When the library hands back the error it could not read a status from,
   * the only errors the middleware lets through are the wrapped service's
   * own non-h2 errors that carry no status.
   */
  lemma OnlyUnrecoverableErrorsEscape<B>(inner: Poll<Result<Response<B>, BoxError>>, tryFromError: TryFromError)
    requires ReturnsOriginalOnFailure(tryFromError)
    ensures var r := PollResponse(inner, tryFromError);
            r.Ready? && r.value.Err? ==>
              && inner == Ready(Err(r.value.error))
              && !r.value.error.H2?
              && tryFromError(r.value.error).Err?
  {
  }

  // ---------------------------------------------------------------------
  // The middleware as a service

  /** The wrapped service: one poll of its readiness, and one poll of its response to a request. */
  datatype Service<-Req, B> = Service(
    ready: Poll<Result<Unit, BoxError>>,
    call: Req -> Poll<Result<Response<B>, BoxError>>)

  /** `RecoverError<S>`. */
  datatype RecoverError<-Req, B> = RecoverError(inner: Service<Req, B>) {

    /** `poll_ready`: the wrapped service's readiness, errors passed on unchanged. */
    function PollReady(): (r: Poll<Result<Unit, BoxError>>)
      ensures r == inner.ready
    {
      inner.ready
    }

    /**
     * `call`, polled once: an error escapes only if the wrapped service
     * failed with something other than an h2 error that has no status, and
     * then it escapes unchanged; a success keeps the wrapped response's head.
     */
    function Call(req: Req, tryFromError: TryFromError): (r: Poll<Result<Response<MaybeEmptyBody<B>>, BoxError>>)
      ensures r.Pending? <==> inner.call(req).Pending?
      ensures r.Ready? && r.value.Err? ==>
                inner.call(req).Ready? && inner.call(req).value.Err? && !inner.call(req).value.error.H2?
      ensures inner.call(req).Ready? && inner.call(req).value.Ok? ==>
                r.Ready? && r.value.Ok? && r.value.value.parts == inner.call(req).value.value.parts
                && r.value.value.body == Full(inner.call(req).value.value.body)
      ensures var c := inner.call(req);
              c.Ready? && c.value.Err? && TryStatusFromError(c.value.error, tryFromError).Ok? ==>
                r == Ready(Ok(StatusResponse(TryStatusFromError(c.value.error, tryFromError).value)))
      ensures var c := inner.call(req);
              c.Ready? && c.value.Err? && c.value.error.H2? ==>
                && r.Ready? && r.value.Ok?
                && r.value.value.parts.status == 200
                && r.value.value.body == Empty()
                && r.value.value.parts.headers[Grpc.GRPC_STATUS] == Grpc.Decimal(CodeForReason(c.value.error.h2.reason).Value())
                && r.value.value.parts.headers[Grpc.GRPC_MESSAGE] == H2_MESSAGE_PREFIX + c.value.error.h2.description
      ensures var c := inner.call(req);
              c.Ready? && c.value.Err? && TryStatusFromError(c.value.error, tryFromError).Err? ==>
                r == Ready(Err(TryStatusFromError(c.value.error, tryFromError).error))
    {
      var c := inner.call(req);
      if c.Ready? && c.value.Err? && c.value.error.H2? then
        H2ErrorsBecomeStatusResponses<B>(c.value.error.h2, tryFromError);
        PollResponse(c, tryFromError)
      else
        PollResponse(c, tryFromError)
    }
  }
}
