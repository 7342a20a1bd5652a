/**
 * Side effects as an output trace: every `log(...)` call becomes a `Log`
 * event and every outbound API call a `Request` event. A thrown exception is
 * a `Run` that ends in a fault.
 */
module Events {
  import opened Wrappers

  /** The property access that threw, aborting the webhook batch. */
  datatype Fault =
    | MissingEntry            // `body.entry.forEach` on an absent `entry`
    | MissingChanges          // `changes.forEach` on an absent `changes`
    | MissingValue            // `value.messages` on an absent change `value`
    | MissingMetadata         // `metadata.phone_number_id` on absent `metadata`
    | MissingPayload(kind: string)  // `message.<kind>.…` on an absent payload object
    | MissingTextBody         // `message.text.body.toLowerCase()` on an absent body

  /** What the Graph API was asked to do: a POST to the per-number messages endpoint. */
  datatype OutboundRequest = OutboundRequest(
    url: string,
    authorization: string,
    messagingProduct: string,
    to: string,
    messageType: string,
    textBody: string)

  /** How an answered send request was classified. */
  datatype Classification = Sent | TokenExpired | InvalidToken | InvalidPhoneNumberId | GenericApiError

  /** One line of the log, with the data the source attaches to it. */
  datatype LogEntry =
    | VerificationRequest(mode: Option<string>, token: Option<string>)
    | VerificationSucceeded
    | VerificationTokenMismatch
    | VerificationMissingParameters
    | NoSignature
    | NonPlatformEvent
    | ProcessingError(fault: Fault)
    | MessageReceived(sender: string, kind: string, timestamp: string, id: string)
    | StatusReceived(id: string, status: string, timestamp: string)
    | TextReceived(body: Option<string>)
    | MediaReceived(kind: string, mediaId: Option<string>)
    | LocationReceived(latitude: Option<string>, longitude: Option<string>)
    | InteractiveReceived(interactiveType: Option<string>)
    | UnsupportedType(kind: string)
    | Delivered(id: string)
    | Read(id: string)
    | Failed(id: string)
    | FailureDetails(errors: string)
    | PlaceholderSkipped(phoneNumberId: string)
    | SendOutcome(classification: Classification)
    | SendError

  datatype Event = Log(entry: LogEntry) | Request(request: OutboundRequest)

  /** The outbound requests of a trace, in order. */
  function Requests(trace: seq<Event>): (rs: seq<OutboundRequest>)
    ensures |rs| <= |trace|
  {
    if trace == [] then []
    else (if trace[0].Request? then [trace[0].request] else []) + Requests(trace[1..])
  }

  lemma {:induction false} RequestsAppend(a: seq<Event>, b: seq<Event>)
    ensures Requests(a + b) == Requests(a) + Requests(b)
    decreases |a|
  {
    if a != [] {
      assert (a + b)[1..] == a[1..] + b;
      RequestsAppend(a[1..], b);
    } else {
      assert a + b == b;
    }
  }

  /** The effects of running some code: the events it emitted and, if it threw, why. */
  datatype Run = Run(events: seq<Event>, fault: Option<Fault>)

  function Emit(entry: LogEntry): Run {
    Run([Log(entry)], None)
  }

  function Throw(f: Fault): Run {
    Run([], Some(f))
  }

  /** Running `a` and then `b`: if `a` threw, `b` never runs. */
  function Then(a: Run, b: Run): (r: Run)
    ensures a.fault.Some? ==> r == a
    ensures a.fault.None? ==> r.events == a.events + b.events && r.fault == b.fault
  {
    if a.fault.Some? then a else Run(a.events + b.events, b.fault)
  }

  /** Sequencing groups either way: nested calls run their effects in the same order. */
  lemma ThenAssociative(a: Run, b: Run, c: Run)
    ensures Then(Then(a, b), c) == Then(a, Then(b, c))
  {
  }

  /** Code that emits nothing and does not throw is neutral on either side. */
  lemma ThenIdentity(a: Run)
    ensures Then(Run([], None), a) == a
    ensures Then(a, Run([], None)) == a
  {
    assert [] + a.events == a.events;
    assert a.events + [] == a.events;
  }

  /** The requests of a sequence: the first part's, then the second's only if the first did not throw. */
  lemma ThenRequests(a: Run, b: Run)
    ensures Requests(Then(a, b).events) == Requests(a.events) + (if a.fault.None? then Requests(b.events) else [])
  {
    if a.fault.None? {
      RequestsAppend(a.events, b.events);
    } else {
      assert Requests(a.events) + [] == Requests(a.events);
    }
  }
}
