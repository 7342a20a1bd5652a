# WhatsApp Business webhook server — a Dafny model

`server.js` is an Express server. It receives WhatsApp Business Platform
webhooks and answers text messages with a canned reply. This project models
its protocol core and proves properties of that model:

- **Configuration** (`config.dfy`). `config.txt` is folded line by line over
  three default settings. Each line is trimmed. Blank lines, `#` comments and
  lines without `=` are skipped. The key ends at the first `=`. The value keeps
  any later `=`. Empty keys and empty values are ignored.
- **Subscription handshake** (`handshake.dfy`). `GET /api/webhooks/whatsapp`
  echoes `hub.challenge` with 200 when `hub.mode` is `subscribe` and
  `hub.verify_token` is the configured token. It answers 403 on a mismatch
  and 400 when a parameter is missing or empty.
- **Signature check** (`signature.dfy`). `verifyRequestSignature` takes the
  `x-hub-signature-256` header and compares its hash segment with the
  HMAC-SHA256 hex digest of the body.
- **Event dispatch** (`dispatch.dfy`, `envelope.dfy`). `POST
  /api/webhooks/whatsapp` walks entries, then changes, then messages and
  statuses, in that order.
- **Handlers** (`handlers.dfy`). `handleMessage` switches on the message type.
  `handleStatus` switches on the delivery status. `handleTextMessage` holds
  the auto-reply rule.
- **Sending** (`reply.dfy`). `sendTextMessage` skips the placeholder
  phone-number ids. Otherwise it builds the Graph API request and classifies
  the API's error answers.

Side effects are an output trace (`events.dfy`). Each `log(...)` call is a
`Log` event and each outbound Graph API call is a `Request` event. A thrown
exception is a `Run` that ends in a `Fault`. Composing runs with `Then` gives
JavaScript's exception semantics: once a part throws, nothing after it runs.

The POST handler is modelled twice:

- as the source writes it, with one method per `forEach` loop
  (`Dispatch.HandlePost` down to `Dispatch.ProcessStatuses`);
- as a specification: the flat work list of the body's messages and statuses,
  in processing order, run one after the other until one throws
  (`Dispatch.Post`).

Each loop method is proved equal to the specification. The properties of the
endpoint are proved about the specification: which status code it returns,
where processing stops, and which replies are sent.

`text.dfy` models the JavaScript string operations the code relies on:
`trim`, `split`, `join`, `includes`, `startsWith` and `toLowerCase`.

### Behaviour worth knowing (the model follows the code)

- **One throw aborts the batch.** A webhook receiver usually acknowledges a
  well-formed delivery with 200 and isolates failures to the item that
  caused them. This code does not. One throw aborts the whole batch, the
  envelope is answered with 500, and the items after the failing one are
  never handled (server.js:124-176). `Dispatch.PostOutcome` states this
  behaviour.
- **The signature check is not wired in.** Its call is commented out
  (server.js:126). That call would also pass the re-serialised body rather
  than the raw bytes. `Dispatch.Post` therefore does not consult the
  signature.
- **The signature check ignores parts of the header.** The check reads only
  the text between the first and second `=`. Any prefix (not only `sha256`)
  and any `=`-separated trailer are accepted (`Signature.PrefixAndTrailerIgnored`).
- **A failed send is logged and rethrown** (server.js:335-338). It never
  reaches the webhook handler, because the send is not awaited. It becomes
  an unhandled rejection instead.

## Model

| member | source | states |
|---|---|---|
| Text.Trim | server.js:29 | The result is trimmed, no longer than the input, empty exactly when the input is all whitespace, and equal to the input when the input is already trimmed |
| Text.TrimStrips | server.js:29 | Trim removes exactly the whitespace at the two ends: the result is the slice of the input after its leading whitespace, and every character before and after that slice is whitespace |
| Text.TrimKeepsAbsent | server.js:29 | Trimming adds no character: a character absent from the input is absent from its trim |
| Text.Join | server.js:32 | A join starts with the first piece, and with two or more pieces the separator follows it |
| Text.SplitJoin | server.js:31-32 | Split undoes Join: pieces free of the separator, joined and split again, come back unchanged |
| Text.Split | server.js:31 | Splitting on a one-character separator gives at least one piece; no piece contains the separator; joining the pieces with the separator gives back the input |
| Text.Contains | server.js:242-244 | `includes` holds exactly when the substring occurs at some position of the string |
| Text.ToLowerAscii | server.js:239 | Same length as the input; each character is lowered |
| Config.ParseLine | server.js:29-37 | A line sets at most one key: the key is non-empty, trimmed and free of `=`, and the value is non-empty and trimmed |
| Config.KeyValue | server.js:32-35 | A key is set exactly when the trimmed key text and the trimmed value text are both non-empty, and then to those trimmed texts; a key text without `=` gives a valid setting |
| Config.SplitSetting | server.js:30-35 | Splitting a trimmed line at its first `=` gives a valid setting; it sets a key exactly when the line is non-empty, is not a `#` comment, holds `=`, and both trimmed halves around the first `=` are non-empty |
| Config.KeyValueAtFirstEquals | server.js:31-33 | On a non-comment line holding `=`, the key and the re-joined tail of the split are the two halves around the first `=` |
| Config.ParseLineAtFirstEquals | server.js:29-37 | Splitting at every `=` and re-joining the tail is the same as splitting at the first `=`; blank lines, comments, lines without `=`, and empty keys or values set nothing |
| Config.ParseLineRoundTrip | server.js:29-37 | Any valid setting written as `key=value` parses back to itself, even when the value contains `=` |
| Config.MapLinesEach | server.js:28-38 | Reading the lines one by one gives, at each index, what the parser makes of that line alone |
| Config.ParseLinesEach | server.js:28-38 | The i-th parsed setting is ParseLine of the i-th line of the file |
| Config.ParseLinesValid | server.js:28-38 | Every parsed line of a file is a valid setting |
| Config.ApplyAll | server.js:28-38 | Applying the parsed lines in order never removes a key, and the last line, when it sets a key, decides that key's value |
| Config.ApplyAllLookup | server.js:16-38 | After loading, a key's value is the one set by the last line that sets it; a key that no line sets keeps its default |
| Config.ApplyAllWellFormed | server.js:28-38 | Applying lines keeps every value non-empty and trimmed, and never removes a key |
| Config.LoadedHasSettings | server.js:16-38 | Whatever the file says, the three settings stay present, non-empty and trimmed |
| Config.LoadLines | server.js:26-38 | The loop gives the defaults updated by each line in order, and the three settings are present |
| Config.Load | server.js:22-44 | An absent or unreadable file leaves the defaults; otherwise the file's newline-separated lines are loaded |
| Events.ThenAssociative | server.js:124-176 | Sequencing with exceptions groups either way, so nested `forEach` bodies and a flat run of the same steps have the same effects |
| Events.ThenIdentity | server.js:124-176 | Code that emits nothing and does not throw is neutral before or after any other |
| Events.ThenRequests | server.js:124-176 | A sequence issues the first part's requests, then the second part's only when the first did not throw |
| Handshake.Verify | server.js:101-120 | The request is logged; the challenge is echoed with 200 exactly when mode is `subscribe` and the token matches; 403 exactly when both are present but one check fails; 400 exactly when either is absent or empty; each outcome logs its own line (verified, token mismatch, missing parameters); nothing is sent |
| Handshake.VerifyExamples | server.js:101-120 | A matching subscription, a wrong token and a missing mode give 200 with the challenge, 403 and 400 |
| Handshake.EmptyIsMissing | server.js:108 | An empty query value is treated as a missing one |
| Signature.SignatureHash | server.js:88-89 | The hash segment is absent exactly when the header has no `=`; when present it contains no `=` |
| Signature.VerifyRequestSignature | server.js:80-98 | A missing or empty header is only logged; a non-empty header passes silently exactly when its hash segment equals the body's digest, and throws `Invalid signature` exactly when it does not (including a header without `=`) |
| Signature.HeaderWithoutHashRejected | server.js:88-96 | A non-empty header without `=` has no hash segment and is refused |
| Signature.SignatureHashAfter | server.js:88-89 | The hash segment of `prefix=rest` is the text of `rest` up to its first `=` |
| Signature.SignatureHashOf | server.js:88-89 | The hash segment of `prefix=hash` and of `prefix=hash=trailer` is `hash` |
| Signature.GenuineSignatureAccepted | server.js:88-97 | `sha256=<digest of the body>` is accepted |
| Signature.TamperedBodyRejected | server.js:90-97 | A signature made for one body is refused for a body with a different digest |
| Signature.ForgedHashRejected | server.js:88-97 | A hash that is not the body's digest is refused, whatever the prefix |
| Signature.PrefixAndTrailerIgnored | server.js:88-89 | Any prefix and any `=` trailer are accepted next to the right hash |
| Reply.BuildRequest | server.js:262-278 | The request goes to `https://graph.facebook.com/v18.0/<id>/messages`, addressed to the recipient, with the reply text |
| Reply.StartSend | server.js:252-278 | A placeholder phone-number id is logged and skipped, with no request; any other id issues exactly that one request |
| Reply.Classify | server.js:283-332 | Each category holds exactly under its condition. Expired: code 190 with subcode 463 or a "Session has expired" message. Invalid token: code 190, not expired, with "Invalid OAuth access token". Bad phone-number id: code 100 with subcode 33. A throw: code 190, subcode not 463, no message. Everything else is generic, and an answer without `error` counts as sent |
| Reply.ClassifyExamples | server.js:283-329 | 190/463 is an expired token, 100/33 a bad phone-number id, and code 4 is generic |
| Reply.Send | server.js:250-339 | Starts with what StartSend emits; it settles as a test exactly for a placeholder id and rejects exactly on a transport failure or a throwing classification; otherwise it returns the classification of the answer. After the first event a test send logs nothing more, a returned send logs exactly its classification, and a rejected send logs exactly the send error |
| Handlers.AutoReply | server.js:238-247 | Case-insensitively: the greeting exactly when the body contains "hello" or "hi"; otherwise the help reply exactly when it contains "help"; otherwise nothing |
| Handlers.AutoReplyIgnoresCase | server.js:239 | A body and its lower-case form get the same reply |
| Handlers.GreetingExample | server.js:242-243 | "hello there" is greeted |
| Handlers.HelpExample | server.js:244-245 | "HELP me" gets the help reply |
| Handlers.NoReplyExample | server.js:242-246 | "foo" gets no reply |
| Handlers.HandleTextMessage | server.js:238-247 | At most one event, present exactly when the rule answers; it is the request for that reply to the sender, or exactly the placeholder-skip log when the phone-number id is a placeholder |
| Handlers.MediaLog | server.js:190-204 | A media message logs its kind and media id; it throws exactly when the payload is absent, and then logs nothing |
| Handlers.HandleMessage | server.js:180-217 | Throws for missing metadata, or when the payload read for a known type is absent, and only then; issues exactly the reply a text message asks for; without metadata it throws before logging anything. A missing text, location or interactive payload throws before logging; a text without a body logs the absent body and then throws. Each other case's log is given: a text message logs its body and then runs the auto-reply; image, video, audio and document are MediaLog; location logs its coordinates; interactive logs its type; any other type logs exactly `Unsupported type` |
| Handlers.AtMostOneRequest | server.js:180-247 | A message leads to at most one request, and only a text message leads to one |
| Handlers.HandleStatus | server.js:220-235 | Never sends. Delivered logs exactly the delivered line; read logs exactly the read line; failed logs the failure line, followed by the error details when present. Any other status logs nothing |
| Dispatch.Step | server.js:140-162 | A message logs its arrival first, and then exactly the events and the outcome of HandleMessage, so it throws exactly when it has no metadata or its payload is missing; a status logs its arrival and then its handler's lines, and never throws; a malformed part throws and logs nothing |
| Dispatch.Post | server.js:123-177 | The answer is 200, 404 or 500; 404 exactly for another platform's body; a 500 ends its trace with the processing-error log |
| Dispatch.ProcessSnoc | server.js:131-166 | Processing one more item runs its step after the run so far |
| Dispatch.MessageItems | server.js:139-149 | One work item per message |
| Dispatch.StatusItems | server.js:153-162 | One work item per status |
| Dispatch.FirstFault | server.js:131-166 | Gives the first item that throws: every item before it completes, and that item throws (or the index is the length when none throws) |
| Dispatch.StopsAtFault | server.js:124-176 | Once a prefix of the work has thrown, the rest of the work has no effect |
| Dispatch.ProcessFirstFault | server.js:124-176 | The run throws exactly when some item throws, and stops right after the first such item; the requests issued are exactly those of the items before it, in order |
| Dispatch.StepIssuesExpected | server.js:140-162 | Each item issues exactly the request its message asks for, and none when it throws |
| Dispatch.ForeignBodyIgnored | server.js:130-172 | 404 exactly for a body whose `object` is not the platform's, with nothing but that logged |
| Dispatch.PostOutcome | server.js:123-177 | 200 exactly when no item throws. On a throw: 500, the events up to and including the failing item plus the error log, and no later item processed. In both cases the requests sent are those of the items before the first failure |
| Dispatch.ChangeOrder | server.js:134-164 | A change's messages are handled once each, in order, with the change's metadata, and then its statuses |
| Dispatch.HandlePost | server.js:123-177 | The handler's result is the specification's result (status and trace) for every body |
| Dispatch.ProcessEntries | server.js:131-166 | The loop over entries is the specification's run of their work, stopping at the first throw |
| Dispatch.ProcessEntry | server.js:131-133 | One entry: missing `changes` throws; otherwise its changes are processed in order |
| Dispatch.ProcessChanges | server.js:134-165 | The loop over changes is the specification's run of their work |
| Dispatch.ProcessChange | server.js:135-164 | A change whose field is not `messages` does nothing; a missing `value` throws; otherwise its messages run, then its statuses |
| Dispatch.ProcessMessages | server.js:140-149 | The loop over messages is the specification's run of their items |
| Dispatch.ProcessStatuses | server.js:154-162 | The loop over statuses is the specification's run of their items, and it never throws |

## Left out

- Express plumbing, the `/health` and `/` endpoints, the server start-up banner and the `uncaughtException`/`unhandledRejection` handlers: these are not protocol logic.
- File I/O and the log files. `Config.Load` takes the file's text, or its absence, as a parameter. Creating the default `config.txt` when it is missing is not modelled. Log lines are trace events without timestamps and without their human-readable texts.
- HMAC-SHA256 and hex encoding come from the crypto library. They are a function-typed parameter `hmac`. The tamper and forgery lemmas therefore assume different digests rather than deriving them.
- The network and JSON decoding are not modelled. The Graph API's answer is the `reply` parameter of `Reply.Send`.
- The asynchronous continuation of `sendTextMessage` is not modelled inside the POST trace. Only its synchronous prefix (`Reply.StartSend`) runs inside the POST handler. `Reply.Send` describes the whole send separately, because the handler does not await it. The rethrown send failure therefore never affects the POST response.
- Handlers.AutoReply: `toLowerCase` is modelled for ASCII letters only, so full Unicode case mapping is not captured.
- JSON shapes the code does not expect are not modelled. These are repeated query parameters (arrays), non-object bodies, entries, messages or statuses that are `null`, and non-string ids. Fields the code reads without checking (`from`, `type`, `timestamp`, `phone_number_id`) are strings. A status's `errors` is present or absent. Its JavaScript truthiness (an empty array is truthy) is represented by presence.
- Error messages of thrown exceptions are replaced by `Fault` tags naming the property access that threw.
- Special keys of the configuration object (such as `__proto__`) are treated as ordinary keys.
- There is no replay protection or deduplication of webhook deliveries, because the source has none.
