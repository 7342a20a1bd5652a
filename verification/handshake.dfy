/**
 * The subscription handshake of the GET webhook endpoint (server.js:101-120):
 * a pure function of the three query parameters and the configured verify token.
 */
module Handshake {
  import opened Wrappers
  import opened Events

  /** JavaScript truthiness of a query parameter: present and not the empty string. */
  predicate Truthy(p: Option<string>) {
    p.Some? && p.value != ""
  }

  /** `res.sendStatus(code)`, or `res.status(code).send(body)` (an absent body sends nothing). */
  datatype HttpResponse = StatusOnly(code: int) | Text(code: int, body: Option<string>)

  datatype Reply = Reply(response: HttpResponse, trace: seq<Event>)

  const SubscribeMode: string := "subscribe"

  /**
   * The challenge is echoed verbatim with 200 exactly when both mode and
   * token are given, the mode is `subscribe` and the token is the configured
   * one; 403 when both are given but either check fails; 400 when either is
   * absent or empty. The request is logged first, then the outcome.
   */
  function Verify(mode: Option<string>, token: Option<string>, challenge: Option<string>, verifyToken: string): (r: Reply)
    ensures |r.trace| == 2 && r.trace[0] == Log(VerificationRequest(mode, token))
    ensures r.response == Text(200, challenge) <==>
      Truthy(mode) && Truthy(token) && mode.value == SubscribeMode && token.value == verifyToken
    ensures r.response == StatusOnly(403) <==>
      Truthy(mode) && Truthy(token) && (mode.value != SubscribeMode || token.value != verifyToken)
    ensures r.response == StatusOnly(400) <==> !Truthy(mode) || !Truthy(token)
    ensures r.response.Text? ==> r.trace[1] == Log(VerificationSucceeded)
    ensures r.response == StatusOnly(403) ==> r.trace[1] == Log(VerificationTokenMismatch)
    ensures r.response == StatusOnly(400) ==> r.trace[1] == Log(VerificationMissingParameters)
    ensures Requests(r.trace) == []
  {
    var request := Log(VerificationRequest(mode, token));
    if Truthy(mode) && Truthy(token) then
      if mode.value == SubscribeMode && token.value == verifyToken then
        Reply(Text(200, challenge), [request, Log(VerificationSucceeded)])
      else
        Reply(StatusOnly(403), [request, Log(VerificationTokenMismatch)])
    else
      Reply(StatusOnly(400), [request, Log(VerificationMissingParameters)])
  }

  /** Three sample exchanges: a matching subscription, a wrong token, a missing mode. */
  lemma VerifyExamples(verifyToken: string)
    requires verifyToken != ""
    ensures Verify(Some(SubscribeMode), Some(verifyToken), Some("xyz"), verifyToken).response == Text(200, Some("xyz"))
    ensures verifyToken != "wrong" ==>
      Verify(Some(SubscribeMode), Some("wrong"), Some("xyz"), verifyToken).response == StatusOnly(403)
    ensures Verify(None, Some(verifyToken), Some("xyz"), verifyToken).response == StatusOnly(400)
  {
  }

  /** An empty query value counts as missing: `hub.mode=` behaves like no `hub.mode` at all. */
  lemma EmptyIsMissing(token: Option<string>, challenge: Option<string>, verifyToken: string)
    ensures Verify(Some(""), token, challenge, verifyToken).response == Verify(None, token, challenge, verifyToken).response
  {
  }
}
