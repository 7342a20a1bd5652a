/**
 * `handleMessage`, `handleStatus` and `handleTextMessage` (server.js:179-247):
 * type switches that log what arrived and, for text, may start one reply.
 */
module Handlers {
  import opened Wrappers
  import opened Text
  import opened Events
  import opened Envelope
  import opened Reply

  const Greeting: string := "Hello! Thank you for contacting us. \U{1F44B}"
  const HelpReply: string := "How can I assist you today?"

  /**
   * The auto-reply rule on a text body, compared in lower case: a greeting
   * for "hello" or "hi" (even when "help" is there too), else the help
   * reply for "help", else nothing.
   */
  function AutoReply(body: string): (r: Option<string>)
    ensures r == Some(Greeting) <==> Contains(ToLowerAscii(body), "hello") || Contains(ToLowerAscii(body), "hi")
    ensures r == Some(HelpReply) <==>
      !Contains(ToLowerAscii(body), "hello") && !Contains(ToLowerAscii(body), "hi") && Contains(ToLowerAscii(body), "help")
    ensures r.None? <==>
      !Contains(ToLowerAscii(body), "hello") && !Contains(ToLowerAscii(body), "hi") && !Contains(ToLowerAscii(body), "help")
  {
    var userMessage := ToLowerAscii(body);
    if Contains(userMessage, "hello") || Contains(userMessage, "hi") then Some(Greeting)
    else if Contains(userMessage, "help") then Some(HelpReply)
    else None
  }

  /** The rule ignores ASCII case: a body and its lower-case form get the same reply. */
  lemma AutoReplyIgnoresCase(body: string)
    ensures AutoReply(ToLowerAscii(body)) == AutoReply(body)
  {
    ToLowerIdempotent(body);
  }

  /**
   * `handleTextMessage`: a body the rule does not answer does nothing; an
   * answered body starts exactly one send of the chosen reply to the sender,
   * which issues a request unless the phone-number id is a placeholder.
   */
  function HandleTextMessage(body: string, phoneNumberId: string, sender: string, accessToken: string): (trace: seq<Event>)
    ensures |trace| <= 1
    ensures |trace| == 1 <==> AutoReply(body).Some?
    ensures Requests(trace) ==
      if AutoReply(body).Some? && !IsPlaceholder(phoneNumberId)
      then [BuildRequest(phoneNumberId, sender, AutoReply(body).value, accessToken)]
      else []
    ensures AutoReply(body).Some? && IsPlaceholder(phoneNumberId) ==> trace == [Log(PlaceholderSkipped(phoneNumberId))]
    ensures AutoReply(body).Some? && !IsPlaceholder(phoneNumberId) ==>
      trace == [Request(BuildRequest(phoneNumberId, sender, AutoReply(body).value, accessToken))]
  {
    match AutoReply(body)
    case None => []
    case Some(reply) => StartSend(phoneNumberId, sender, reply, accessToken)
  }

  /** Sample bodies: "hello there" is greeted, "HELP me" helped, "foo" not answered. */
  lemma GreetingExample()
    ensures AutoReply("hello there") == Some(Greeting)
  {
    NoUpperUnchanged("hello there");
    Greets("hello there");
  }

  /** A body that lowers to `hello there` is greeted. */
  lemma Greets(body: string)
    requires ToLowerAscii(body) == "hello there"
    ensures AutoReply(body) == Some(Greeting)
  {
    assert OccursAt(ToLowerAscii(body), "hello", 0);
  }

  lemma HelpExample()
    ensures AutoReply("HELP me") == Some(HelpReply)
  {
    LowerHelpMe();
    AsksForHelp("HELP me");
  }

  /** Upper-case letters are lowered; the space is kept. */
  lemma LowerHelpMe()
    ensures ToLowerAscii("HELP me") == "help me"
  {
    assert ToLowerAscii("me") == "me";
  }

  /** A body that lowers to `help me` greets no one and asks for help. */
  lemma AsksForHelp(body: string)
    requires ToLowerAscii(body) == "help me"
    ensures AutoReply(body) == Some(HelpReply)
  {
    var lowered := ToLowerAscii(body);
    assert OccursAt(lowered, "help", 0);
    MissingCharNotContained(lowered, "hello", 'o');
    MissingCharNotContained(lowered, "hi", 'i');
  }

  lemma NoReplyExample()
    ensures AutoReply("foo") == None
  {
    assert ToLowerAscii("foo") == "foo";
    MissingCharNotContained("foo", "hello", 'h');
    MissingCharNotContained("foo", "hi", 'h');
    MissingCharNotContained("foo", "help", 'h');
  }

  /** The payload a known message type reads is absent (or, for text, its body is). */
  predicate PayloadMissing(m: Message) {
    || (m.kind == "text" && (m.text.None? || m.text.value.body.None?))
    || (m.kind == "image" && m.image.None?)
    || (m.kind == "video" && m.video.None?)
    || (m.kind == "audio" && m.audio.None?)
    || (m.kind == "document" && m.document.None?)
    || (m.kind == "location" && m.location.None?)
    || (m.kind == "interactive" && m.interactive.None?)
  }

  /**
   * The reply a message asks for, stated without the handler: a text message
   * with a body, under metadata whose phone-number id is not a placeholder,
   * whose body the rule answers.
   */
  function ExpectedRequests(m: Message, metadata: Option<Metadata>, accessToken: string): seq<OutboundRequest> {
    if metadata.Some? && m.kind == "text" && m.text.Some? && m.text.value.body.Some?
       && AutoReply(m.text.value.body.value).Some? && !IsPlaceholder(metadata.value.phoneNumberId)
    then [BuildRequest(metadata.value.phoneNumberId, m.sender, AutoReply(m.text.value.body.value).value, accessToken)]
    else []
  }

  /** The types `handleMessage` has a case for. */
  predicate KnownType(kind: string) {
    kind in ["text", "image", "video", "audio", "document", "location", "interactive"]
  }

  /** An image, video, audio or document message: its media id is logged, and an absent payload throws. */
  function MediaLog(kind: string, payload: Option<MediaPayload>): (r: Run)
    ensures r.fault.Some? <==> payload.None?
    ensures payload.None? ==> r == Throw(MissingPayload(kind))
    ensures payload.Some? ==> r.events == [Log(MediaReceived(kind, payload.value.id))]
  {
    if payload.None? then Throw(MissingPayload(kind)) else Emit(MediaReceived(kind, payload.value.id))
  }

  /**
   * `handleMessage`: reading the phone-number id throws without metadata;
   * each known type logs its payload (throwing when it is absent); text
   * goes on to the auto-reply; an unknown type is logged as unsupported.
   */
  function HandleMessage(m: Message, metadata: Option<Metadata>, accessToken: string): (r: Run)
    ensures r.fault == Some(MissingMetadata) <==> metadata.None?
    ensures r.fault.Some? <==> metadata.None? || PayloadMissing(m)
    ensures Requests(r.events) == ExpectedRequests(m, metadata, accessToken)
    ensures metadata.None? ==> r == Throw(MissingMetadata)
    ensures metadata.Some? && !KnownType(m.kind) ==> r == Emit(UnsupportedType(m.kind))
    ensures metadata.Some? && m.kind == "text" && m.text.None? ==> r == Throw(MissingPayload("text"))
    ensures metadata.Some? && m.kind == "text" && m.text.Some? && m.text.value.body.None? ==>
      r == Run([Log(TextReceived(None))], Some(MissingTextBody))
    ensures metadata.Some? && m.kind == "text" && m.text.Some? ==>
      |r.events| >= 1 && r.events[0] == Log(TextReceived(m.text.value.body))
    ensures metadata.Some? && m.kind == "text" && m.text.Some? && m.text.value.body.Some? ==>
      r.events[1..] == HandleTextMessage(m.text.value.body.value, metadata.value.phoneNumberId, m.sender, accessToken)
    ensures metadata.Some? && m.kind == "image" ==> r == MediaLog("image", m.image)
    ensures metadata.Some? && m.kind == "video" ==> r == MediaLog("video", m.video)
    ensures metadata.Some? && m.kind == "audio" ==> r == MediaLog("audio", m.audio)
    ensures metadata.Some? && m.kind == "document" ==> r == MediaLog("document", m.document)
    ensures metadata.Some? && m.kind == "location" && m.location.None? ==> r == Throw(MissingPayload("location"))
    ensures metadata.Some? && m.kind == "interactive" && m.interactive.None? ==> r == Throw(MissingPayload("interactive"))
    ensures metadata.Some? && m.kind == "location" && m.location.Some? ==>
      r == Emit(LocationReceived(m.location.value.latitude, m.location.value.longitude))
    ensures metadata.Some? && m.kind == "interactive" && m.interactive.Some? ==>
      r == Emit(InteractiveReceived(m.interactive.value.interactiveType))
  {
    if metadata.None? then Throw(MissingMetadata)
    else
      var phoneNumberId := metadata.value.phoneNumberId;
      if m.kind == "text" then
        if m.text.None? then Throw(MissingPayload("text"))
        else
          var body := m.text.value.body;
          var logged := Emit(TextReceived(body));
          if body.None? then Then(logged, Throw(MissingTextBody))
          else
            var sends := HandleTextMessage(body.value, phoneNumberId, m.sender, accessToken);
            RequestsAppend(logged.events, sends);
            Then(logged, Run(sends, None))
      else if m.kind == "image" then MediaLog("image", m.image)
      else if m.kind == "video" then MediaLog("video", m.video)
      else if m.kind == "audio" then MediaLog("audio", m.audio)
      else if m.kind == "document" then MediaLog("document", m.document)
      else if m.kind == "location" then
        if m.location.None? then Throw(MissingPayload("location"))
        else Emit(LocationReceived(m.location.value.latitude, m.location.value.longitude))
      else if m.kind == "interactive" then
        if m.interactive.None? then Throw(MissingPayload("interactive"))
        else Emit(InteractiveReceived(m.interactive.value.interactiveType))
      else Emit(UnsupportedType(m.kind))
  }

  /** Only text messages can lead to a request, and a message leads to at most one. */
  lemma AtMostOneRequest(m: Message, metadata: Option<Metadata>, accessToken: string)
    ensures |Requests(HandleMessage(m, metadata, accessToken).events)| <= 1
    ensures m.kind != "text" ==> Requests(HandleMessage(m, metadata, accessToken).events) == []
  {
  }

  /**
   * `handleStatus`: delivered, read and failed are logged (failed with its
   * error details when present); any other status logs nothing. It never
   * throws and never sends.
   */
  function HandleStatus(s: Status): (trace: seq<Event>)
    ensures Requests(trace) == []
    ensures trace == [] <==> s.status != "delivered" && s.status != "read" && s.status != "failed"
    ensures |trace| == 2 <==> s.status == "failed" && s.errors.Some?
    ensures |trace| <= 2
    ensures s.status == "delivered" ==> trace == [Log(Delivered(s.id))]
    ensures s.status == "read" ==> trace == [Log(Read(s.id))]
    ensures s.status == "failed" ==>
      trace[0] == Log(Failed(s.id)) && (s.errors.Some? ==> trace[1] == Log(FailureDetails(s.errors.value)))
  {
    if s.status == "delivered" then [Log(Delivered(s.id))]
    else if s.status == "read" then [Log(Read(s.id))]
    else if s.status == "failed" then
      [Log(Failed(s.id))] + (if s.errors.Some? then [Log(FailureDetails(s.errors.value))] else [])
    else []
  }
}
