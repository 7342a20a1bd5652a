/**
 * The webhook body as the server reads it: every field the handlers touch
 * may be absent, and an absent field is `None`.
 */
module Envelope {
  import opened Wrappers

  datatype TextPayload = TextPayload(body: Option<string>)
  datatype MediaPayload = MediaPayload(id: Option<string>)
  datatype LocationPayload = LocationPayload(latitude: Option<string>, longitude: Option<string>)
  datatype InteractivePayload = InteractivePayload(interactiveType: Option<string>)

  /** An inbound message; `kind` is its `type`, and at most the matching payload is read. */
  datatype Message = Message(
    sender: string,
    id: string,
    timestamp: string,
    kind: string,
    text: Option<TextPayload>,
    image: Option<MediaPayload>,
    video: Option<MediaPayload>,
    audio: Option<MediaPayload>,
    document: Option<MediaPayload>,
    location: Option<LocationPayload>,
    interactive: Option<InteractivePayload>)

  /** A delivery status; `errors` is the attached error details, if any. */
  datatype Status = Status(id: string, status: string, timestamp: string, errors: Option<string>)

  datatype Metadata = Metadata(phoneNumberId: string)

  datatype ChangeValue = ChangeValue(
    metadata: Option<Metadata>,
    messages: Option<seq<Message>>,
    statuses: Option<seq<Status>>)

  datatype Change = Change(field: Option<string>, value: Option<ChangeValue>)

  datatype Entry = Entry(changes: Option<seq<Change>>)

  /** `objectKind` is the body's `object` discriminator. */
  datatype WebhookBody = WebhookBody(objectKind: Option<string>, entry: Option<seq<Entry>>)
}
