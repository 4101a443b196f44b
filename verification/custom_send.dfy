/**
 * The callable custom-send endpoint: validates the request, routes it to a
 * topic or to device tokens, and maps every failure inside its `try` block to
 * an `internal` error.
 */
module CustomSend {
  import opened Base
  import opened Messages
  import opened Delivery

  /** The caller's payload; every field may be absent. */
  datatype Request = Request(
    title: Option<string>,
    body: Option<string>,
    tokens: Option<seq<string>>,
    topic: Option<string>,
    data: Option<Data>)

  datatype ErrorCode = InvalidArgument | Internal

  /** The error the endpoint raises to its caller. */
  datatype HttpsError = HttpsError(code: ErrorCode, message: string)

  /** The endpoint's successful result. */
  datatype Response = Response(success: bool, successCount: nat, failureCount: nat)

  datatype Reply = Returned(response: Response) | Raised(error: HttpsError)

  /** One call: the send it issued, if any, and what the caller receives. */
  datatype Call = Call(dispatch: Option<Dispatch>, reply: Reply)

  /** Something thrown inside the `try` block: an endpoint error or a transport error. */
  datatype Thrown = ThrownHttps(error: HttpsError) | ThrownTransport(message: string)

  /** How the `try` block ends: with the result object, or by throwing. */
  datatype TryOutcome = Completed(response: Response) | Threw(thrown: Thrown)

  const MissingContentMessage: string := "T\U{ED}tulo y cuerpo requeridos"
  const MissingTargetMessage: string := "Tokens o t\U{F3}pico requeridos"

  /** The `message` property of anything thrown. */
  function ThrownMessage(thrown: Thrown): string {
    match thrown
    case ThrownHttps(e) => e.message
    case ThrownTransport(m) => m
  }

  /** Both the title and the body are truthy. */
  predicate HasContent(req: Request) {
    TruthyString(req.title) && TruthyString(req.body)
  }

  predicate HasTokens(req: Request) {
    req.tokens.Some? && |req.tokens.value| > 0
  }

  /** Where the request is delivered: a truthy topic first, otherwise a non-empty token list. */
  function Route(req: Request): (target: Option<Target>)
    ensures target.Some? <==> TruthyString(req.topic) || HasTokens(req)
    ensures target.Some? && target.value.Topic? ==> req.topic == Some(target.value.name) && target.value.name != ""
    ensures target.Some? && target.value.Devices? ==>
      !TruthyString(req.topic) && req.tokens == Some(target.value.tokens) && |target.value.tokens| > 0
  {
    if TruthyString(req.topic) then Some(Topic(req.topic.value))
    else if HasTokens(req) then Some(Devices(req.tokens.value))
    else None
  }

  /** The message built from a request with content; `data` defaults to the empty map. */
  function RequestMessage(req: Request): (m: Message)
    requires HasContent(req)
    ensures Some(m.title) == req.title && Some(m.body) == req.body
    ensures req.data.Some? ==> m.data == req.data.value
    ensures req.data.None? ==> m.data == map[]
  {
    Message(req.title.value, req.body.value, if req.data.Some? then req.data.value else map[])
  }

  /** The body of the `try` block: choose a route, send, and build the result object. */
  function TryDeliver(req: Request, message: Message, sent: SendOutcome): (Option<Dispatch>, TryOutcome)
  {
    match Route(req)
    case None => (None, Threw(ThrownHttps(HttpsError(InvalidArgument, MissingTargetMessage))))
    case Some(target) =>
      var dispatch := Dispatch(target, message, NoOptions);
      match sent
      case Err(m) => (Some(dispatch), Threw(ThrownTransport(m)))
      case Ok(r) => (Some(dispatch), Completed(Response(true, r.successCount, r.failureCount)))
  }

  /** The endpoint, with `sent` the transport's outcome should it be called. */
  function SendCustomNotification(req: Request, sent: SendOutcome): (call: Call)
    ensures !HasContent(req) ==> call == Call(None, Raised(HttpsError(InvalidArgument, MissingContentMessage)))
    ensures call.dispatch.Some? <==> HasContent(req) && Route(req).Some?
    ensures call.dispatch.Some? ==>
      call.dispatch.value == Dispatch(Route(req).value, RequestMessage(req), NoOptions)
    ensures call.reply.Returned? <==> HasContent(req) && Route(req).Some? && sent.Ok?
    ensures call.reply.Returned? ==>
      call.reply.response == Response(true, sent.response.successCount, sent.response.failureCount)
    ensures HasContent(req) && Route(req).None? ==>
      call.reply == Raised(HttpsError(Internal, MissingTargetMessage))
    ensures HasContent(req) && Route(req).Some? && sent.Err? ==>
      call.reply == Raised(HttpsError(Internal, sent.message))
  {
    if !HasContent(req) then Call(None, Raised(HttpsError(InvalidArgument, MissingContentMessage)))
    else
      var (dispatch, outcome) := TryDeliver(req, RequestMessage(req), sent);
      match outcome
      case Completed(response) => Call(dispatch, Returned(response))
      case Threw(thrown) => Call(dispatch, Raised(HttpsError(Internal, ThrownMessage(thrown))))
  }

  /** `invalid-argument` reaches the caller only for missing content; every later failure is `internal`. */
  lemma InvalidArgumentOnlyForContent(req: Request, sent: SendOutcome)
    ensures var call := SendCustomNotification(req, sent);
      call.reply.Raised? ==>
        (call.reply.error.code == InvalidArgument <==> !HasContent(req)) &&
        (call.reply.error.code == InvalidArgument ==> call.reply.error.message == MissingContentMessage)
  {
  }

  /** A truthy topic wins over any token list supplied with it. */
  lemma TopicTakesPrecedence(req: Request, sent: SendOutcome)
    requires HasContent(req) && TruthyString(req.topic)
    ensures var call := SendCustomNotification(req, sent);
      call.dispatch.Some? && call.dispatch.value.target == Topic(req.topic.value)
  {
  }

  /** A request without a truthy topic and without tokens fails as `internal`, after no send. */
  lemma MissingTargetIsInternal(req: Request, sent: SendOutcome)
    requires HasContent(req) && !TruthyString(req.topic)
    requires req.tokens.None? || req.tokens == Some([])
    ensures SendCustomNotification(req, sent) == Call(None, Raised(HttpsError(Internal, MissingTargetMessage)))
  {
  }

  /** Every successful reply says `success: true`. */
  lemma SuccessFlagAlwaysSet(req: Request, sent: SendOutcome)
    ensures var call := SendCustomNotification(req, sent);
      call.reply.Returned? ==> call.reply.response.success && call.dispatch.Some?
  {
  }
}
