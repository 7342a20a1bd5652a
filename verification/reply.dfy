/**
 * `sendTextMessage` (server.js:250-339): the placeholder guard, the request
 * sent to the Graph API, and the classification of its answer. The network
 * call itself is outside the model: its outcome is a parameter.
 */
module Reply {
  import opened Wrappers
  import opened Text
  import opened Events

  /** The dummy phone-number ids of the developer dashboard's test webhooks. */
  predicate IsPlaceholder(phoneNumberId: string) {
    phoneNumberId == "123456123" || phoneNumberId == "123456789"
  }

  const GraphApiBase: string := "https://graph.facebook.com/v18.0/"

  /** The POST to the number's messages endpoint, authorised by the access token. */
  function BuildRequest(phoneNumberId: string, to: string, text: string, accessToken: string): (req: OutboundRequest)
    ensures req.to == to && req.textBody == text
    ensures req.url == GraphApiBase + phoneNumberId + "/messages"
  {
    OutboundRequest(GraphApiBase + phoneNumberId + "/messages", "Bearer " + accessToken, "whatsapp", to, "text", text)
  }

  /**
   * The part of `sendTextMessage` that runs before its first `await`, and so
   * within the webhook handler: a placeholder id is logged and skipped,
   * any other id issues exactly one request.
   */
  function StartSend(phoneNumberId: string, to: string, text: string, accessToken: string): (trace: seq<Event>)
    ensures |trace| == 1
    ensures IsPlaceholder(phoneNumberId) ==> Requests(trace) == [] && trace == [Log(PlaceholderSkipped(phoneNumberId))]
    ensures !IsPlaceholder(phoneNumberId) ==> Requests(trace) == [BuildRequest(phoneNumberId, to, text, accessToken)]
  {
    if IsPlaceholder(phoneNumberId) then [Log(PlaceholderSkipped(phoneNumberId))]
    else [Request(BuildRequest(phoneNumberId, to, text, accessToken))]
  }

  /** The `error` object of a Graph API answer; any field may be absent. */
  datatype ApiError = ApiError(code: Option<int>, subcode: Option<int>, message: Option<string>)

  /** What `await fetch(...)` and `await response.json()` gave: a throw, or a body with or without `error`. */
  datatype ApiReply = TransportFailure | Answered(error: Option<ApiError>)

  /** Code 190 with subcode 463 or a "Session has expired" message. */
  predicate IsTokenExpired(e: ApiError) {
    e.code == Some(190) &&
    (e.subcode == Some(463) || (e.message.Some? && Contains(e.message.value, "Session has expired")))
  }

  /** Code 190, not expired, with an "Invalid OAuth access token" message. */
  predicate IsInvalidToken(e: ApiError) {
    e.code == Some(190) && !IsTokenExpired(e) &&
    e.message.Some? && Contains(e.message.value, "Invalid OAuth access token")
  }

  /** Code 100 with subcode 33. */
  predicate IsInvalidPhoneNumberId(e: ApiError) {
    e.code == Some(100) && e.subcode == Some(33)
  }

  /** Code 190 without subcode 463 and without a message: reading the message throws. */
  predicate MessageAccessThrows(e: ApiError) {
    e.code == Some(190) && e.subcode != Some(463) && e.message.None?
  }

  /**
   * The classification of an answer (server.js:283-332); `None` when the
   * classification itself throws. Expired is tested before invalid, every
   * other code-190 error and every other error is generic, and an answer
   * without `error` is a success.
   */
  function Classify(error: Option<ApiError>): (c: Option<Classification>)
    ensures error.None? <==> c == Some(Sent)
    ensures c == Some(TokenExpired) <==> error.Some? && IsTokenExpired(error.value)
    ensures c == Some(InvalidToken) <==> error.Some? && IsInvalidToken(error.value)
    ensures c == Some(InvalidPhoneNumberId) <==> error.Some? && IsInvalidPhoneNumberId(error.value)
    ensures c.None? <==> error.Some? && MessageAccessThrows(error.value)
    ensures c == Some(GenericApiError) <==>
      error.Some? && !IsTokenExpired(error.value) && !IsInvalidToken(error.value) &&
      !IsInvalidPhoneNumberId(error.value) && !MessageAccessThrows(error.value)
  {
    match error
    case None => Some(Sent)
    case Some(e) =>
      if e.code == Some(190) then
        if e.subcode == Some(463) then Some(TokenExpired)
        else if e.message.None? then None
        else if Contains(e.message.value, "Session has expired") then Some(TokenExpired)
        else if Contains(e.message.value, "Invalid OAuth access token") then Some(InvalidToken)
        else Some(GenericApiError)
      else if e.code == Some(100) && e.subcode == Some(33) then Some(InvalidPhoneNumberId)
      else Some(GenericApiError)
  }

  /** Sample answers: 190/463 is an expired token, 100/33 a bad phone-number id, 4/none generic. */
  lemma ClassifyExamples(message: string)
    ensures Classify(Some(ApiError(Some(190), Some(463), None))) == Some(TokenExpired)
    ensures Classify(Some(ApiError(Some(100), Some(33), Some(message)))) == Some(InvalidPhoneNumberId)
    ensures Classify(Some(ApiError(Some(4), None, Some(message)))) == Some(GenericApiError)
  {
  }

  /** What `sendTextMessage` settles with: the test marker, the classified answer, or a rejection. */
  datatype SendResult = TestNotSent | Returned(classification: Classification) | Rejected

  datatype SendRun = SendRun(result: SendResult, trace: seq<Event>)

  /**
   * The whole send, including what happens after the `await`s. Its first
   * event is what StartSend emits; a transport failure, or a classification
   * that throws, is logged and rejects.
   */
  function Send(phoneNumberId: string, to: string, text: string, accessToken: string, reply: ApiReply): (r: SendRun)
    ensures |r.trace| >= 1 && r.trace[..1] == StartSend(phoneNumberId, to, text, accessToken)
    ensures IsPlaceholder(phoneNumberId) <==> r.result == TestNotSent
    ensures IsPlaceholder(phoneNumberId) ==> Requests(r.trace) == []
    ensures !IsPlaceholder(phoneNumberId) ==> Requests(r.trace) == [BuildRequest(phoneNumberId, to, text, accessToken)]
    ensures r.result == Rejected <==>
      !IsPlaceholder(phoneNumberId) && (reply.TransportFailure? || Classify(reply.error).None?)
    ensures r.result.Returned? ==> reply.Answered? && Some(r.result.classification) == Classify(reply.error)
    ensures r.result == TestNotSent ==> |r.trace| == 1
    ensures r.result.Returned? ==> r.trace[1..] == [Log(SendOutcome(r.result.classification))]
    ensures r.result == Rejected ==> r.trace[1..] == [Log(SendError)]
  {
    var start := StartSend(phoneNumberId, to, text, accessToken);
    if IsPlaceholder(phoneNumberId) then SendRun(TestNotSent, start)
    else
      var outcome :=
        if reply.TransportFailure? then SendRun(Rejected, [Log(SendError)])
        else match Classify(reply.error)
          case None => SendRun(Rejected, [Log(SendError)])
          case Some(c) => SendRun(Returned(c), [Log(SendOutcome(c))]);
      RequestsAppend(start, outcome.trace);
      assert (start + outcome.trace)[..1] == start;
      SendRun(outcome.result, start + outcome.trace)
  }
}
