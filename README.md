# Facebook Messenger webhook adapter, modelled in Dafny

`KituraBotFacebookMessenger` connects a Facebook page to a host bot.
It answers Facebook's subscription handshake on GET. On POST it takes webhook
deliveries, sorts each messaging event into authentication, message, delivery,
postback or unknown, and hands it to a handler. The message handler passes
ordinary text to the host's `messageNotification` callback and relays the reply
to Facebook's Send API. An optional second endpoint lets the host push a text
message, guarded by the page access token.

The model has five files:

- `wrappers.dfy`: `Option`, the model of Swift's optionals.
- `json.dfy`: the parsed JSON document and the SwiftyJSON accessors the adapter
  uses. A subscript that misses is `None`, and a miss carries through chained
  subscripts. `.exists()` means the key is present. `.string` gives a value only
  for a JSON string. `.int` gives a value for a number, and for a boolean as 1 or 0.
  `for … in` visits the items of an array.
- `webhook.dfy`: the adapter's decisions as functions. These cover the handshake,
  classification, the two handlers, the push endpoint and the Send API body.
  The outside world sees the adapter as a trace of effects:
  `Notify(sender, text)` when the host callback is consulted, and
  `Send(Outbound(recipient, text))` when a message is posted to the Send API.
  `ItemEffects`, `ItemsEffects` and `RequestEffects` give the trace a delivery produces.
- `properties.dfy`: lemmas about those functions. They cover priority, order,
  bad input, the handlers' replies and the dead branches.
- `messenger.dfy`: the class `FacebookMessenger`. It holds the read-only
  configuration, the callback and the `effects` trace. The handlers are methods
  that append to the trace. Delivery processing is the source's nested loop over
  entries and messaging items, proved to produce exactly `RequestEffects`.

The attachment and "unexpected" replies can never be sent. The message handler's
guard (line 247) already requires `message.text` to be a string, so the branches
at lines 273-281 are unreachable. An attachment-only message is therefore dropped
without a reply. That is despite the handler's own comment (lines 241-242),
which promises to confirm receipt of an attachment. The model follows the code.
`NoAttachmentOrUnexpectedReply` and `AttachmentOnlyIsDropped` state this.
A callback reply that is an empty string is still sent, because the code tests
only for nil.

## Model

| member | source | states |
|---|---|---|
| `Webhook.ValidateToken` | Sources/KituraBotFacebookMessenger.swift:56-72 | 200 iff `hub.mode` is "subscribe" and `hub.verify_token` equals the configured token; then the body is `hub.challenge`, which must be present (force unwrap); otherwise 403 with no body |
| `Messenger.FacebookMessenger.ValidateTokenHandler` | Sources/KituraBotFacebookMessenger.swift:56-72 | the same answer, using the object's configured validation token, and no effect |
| `Webhook.Classify` | Sources/KituraBotFacebookMessenger.swift:99-114 | each item gets exactly one category: authentication iff `optin` is present; message iff no optin and `message` is present; then delivery, then postback; unknown iff none is present |
| `WebhookProperties.ClassifyIsFirstMatch` | Sources/KituraBotFacebookMessenger.swift:99-114 | classification equals "first key present wins" over the table optin, message, delivery, postback |
| `WebhookProperties.OptinBeatsMessage` | Sources/KituraBotFacebookMessenger.swift:99-103 | every item with both `optin` and `message` is an authentication, and its effects are exactly the authentication handler's |
| `WebhookProperties.SilentCategories` | Sources/KituraBotFacebookMessenger.swift:105-114 | delivery, postback and unknown items produce no effect |
| `WebhookProperties.AuthenticationReply` | Sources/KituraBotFacebookMessenger.swift:206-229 | an optin item whose `sender.id` is a string yields exactly one send, (sender, "Authentication successful"); otherwise nothing |
| `Webhook.DecideMessage` | Sources/KituraBotFacebookMessenger.swift:243-287 | dropped iff one of `sender.id`, `recipient.id`, `timestamp` (int), `message.text`, `message.mid` is missing or mistyped; a keyword text is unsupported; any other text is forwarded with the callback's answer for (sender, text); the attachment and unexpected branches are never taken |
| `WebhookProperties.MessageReply` | Sources/KituraBotFacebookMessenger.swift:243-271 | a message item has no effect iff a field is missing or the text is a keyword; otherwise the callback is consulted with (sender, text), and the reply, even "", is sent to the sender iff it is non-nil |
| `WebhookProperties.KeywordsExact` | Sources/KituraBotFacebookMessenger.swift:258-266 | exactly the texts "image", "button", "generic" and "receipt" are keywords (case-sensitive) |
| `WebhookProperties.HelloIsAnswered` | Sources/KituraBotFacebookMessenger.swift:258-270 | "hello" answered "hi there" by the callback yields Notify(u, "hello") then Send(u, "hi there") |
| `WebhookProperties.AttachmentOnlyIsDropped` | Sources/KituraBotFacebookMessenger.swift:244-287 | every message item without a string `message.text`, attachment-only messages included, is dropped and nothing is sent |
| `WebhookProperties.SendProvenance` | Sources/KituraBotFacebookMessenger.swift:206-287 | every sent message has a handled item that it goes to the sender of, and carries either the authentication text or the callback's reply to that same item's text |
| `WebhookProperties.NoAttachmentOrUnexpectedReply` | Sources/KituraBotFacebookMessenger.swift:247-281 | unless the callback itself returns those texts, no delivery ever sends "Message with attachment received" or "Message unexpected received" |
| `WebhookProperties.FlatMapAppend` | Sources/KituraBotFacebookMessenger.swift:90-115 | processing a concatenation of sequences gives the concatenation of the results, in order |
| `WebhookProperties.ItemsEffectsAppend` | Sources/KituraBotFacebookMessenger.swift:95-115 | the effects of consecutive items concatenate in order |
| `WebhookProperties.EntryItemsAppend` | Sources/KituraBotFacebookMessenger.swift:90-116 | the messaging items of consecutive entries concatenate in order |
| `WebhookProperties.ItemsEffectsSnoc` | Sources/KituraBotFacebookMessenger.swift:95-115 | handling one more item appends that item's effects |
| `WebhookProperties.EntryItemsSnoc` | Sources/KituraBotFacebookMessenger.swift:90-116 | handling one more entry appends its items' effects |
| `WebhookProperties.ItemOrder` | Sources/KituraBotFacebookMessenger.swift:95-115 | item k's effects come after those of all earlier items and before those of all later items |
| `WebhookProperties.EntryOrder` | Sources/KituraBotFacebookMessenger.swift:90-116 | entry i's items are handled after those of all earlier entries and before those of all later entries |
| `WebhookProperties.NoDispatchOnBadInput` | Sources/KituraBotFacebookMessenger.swift:84-121 | an empty body, or one whose `object` is not the string "page", reaches no handler and has no effect |
| `WebhookProperties.UnparseableBody` | Sources/KituraBotFacebookMessenger.swift:85-87 | a body that parses to null has no effect on the webhook and is rejected as invalid by the push endpoint |
| `WebhookProperties.SendBodyRoundTrip` | Sources/KituraBotFacebookMessenger.swift:168-172 | the Send API body has exactly the keys recipient and message, and reading recipient.id and message.text back gives the original message |
| `Webhook.KeywordOf` | Sources/KituraBotFacebookMessenger.swift:258-266 | each of "image", "button", "generic", "receipt" selects its own kind, and no other text is a keyword |
| `Webhook.AuthenticationEffects` | Sources/KituraBotFacebookMessenger.swift:206-229 | at most one effect; none iff `sender.id` is not a string; otherwise the send of (sender, "Authentication successful") |
| `Webhook.OutcomeEffects` | Sources/KituraBotFacebookMessenger.swift:253-281 | no effect iff the message is dropped or a keyword; every send goes to the message's sender; a forwarded text consults the callback first and sends the reply second iff there is one |
| `Webhook.ItemEffects` | Sources/KituraBotFacebookMessenger.swift:99-114 | an item has the effects of the one handler its category routes it to, none for delivery, postback and unknown; every send goes to the item's `sender.id` |
| `Webhook.IsPage` | Sources/KituraBotFacebookMessenger.swift:87 | holds iff the top-level value is an object whose `object` key holds the string "page" |
| `Webhook.DeliveredItems` | Sources/KituraBotFacebookMessenger.swift:87-95 | no items unless the body is a "page" object; then the messaging items of the entries, entry by entry |
| `Webhook.SendBody` | Sources/KituraBotFacebookMessenger.swift:168-171 | the body is an object with exactly the keys recipient and message, and reading `recipient.id` and `message.text` back gives the message |
| `Webhook.PushSend` | Sources/KituraBotFacebookMessenger.swift:129-161 | accepted iff the body is non-empty, `recipientId`, `messageText` and `pageAccessToken` are strings and the token equals the configured one, and then the message is (recipientId, messageText); no body, invalid fields and token mismatch each iff their condition |
| `Webhook.PushResponse` | Sources/KituraBotFacebookMessenger.swift:136-160 | 200 iff accepted, otherwise 400; never a body |
| `Messenger.FacebookMessenger.constructor` | Sources/KituraBotFacebookMessenger.swift:36-42 | stores the validation token, the page access token and the callback, with an empty trace |
| `Messenger.FacebookMessenger.SendTextMessage` | Sources/KituraBotFacebookMessenger.swift:168-191 | appends exactly one send of (recipientId, text) to the trace |
| `Messenger.FacebookMessenger.ReceivedAuthentication` | Sources/KituraBotFacebookMessenger.swift:206-229 | appends exactly the authentication handler's effects |
| `Messenger.FacebookMessenger.ReceivedMessage` | Sources/KituraBotFacebookMessenger.swift:243-287 | appends exactly the effects of the branch `DecideMessage` picks |
| `Messenger.FacebookMessenger.Perform` | Sources/KituraBotFacebookMessenger.swift:253-281 | carries out a message-handler branch: a callback consultation and the optional reply, or a fixed reply, or nothing |
| `Messenger.FacebookMessenger.Dispatch` | Sources/KituraBotFacebookMessenger.swift:99-114 | routes an item by the optin, message, delivery, postback chain and appends exactly its effects |
| `Messenger.FacebookMessenger.ProcessEntry` | Sources/KituraBotFacebookMessenger.swift:95-115 | the inner loop appends the effects of the entry's messaging items, in order |
| `Messenger.FacebookMessenger.ProcessRequest` | Sources/KituraBotFacebookMessenger.swift:80-124 | answers 200 with no body for every body, and appends exactly the effects of the delivered items, entry by entry and item by item |
| `Messenger.FacebookMessenger.SendMessageHandler` | Sources/KituraBotFacebookMessenger.swift:129-161 | answers as `PushResponse`; when accepted it appends exactly one send of the pushed message, and otherwise it changes nothing |

## Left out

- Route registration with the Kitura router (lines 43-48), the paths, and `appSecret` (stored, never used): framework wiring with no decisions in it.
- Reading the raw body and parsing it (lines 84-86, 133-135): a body is either empty or a parsed JSON value. Bytes that are not JSON are the JSON null, as SwiftyJSON makes them.
- Iterating a JSON object where an array is expected: SwiftyJSON visits its values in dictionary order, which is unspecified. The model visits only array items and treats anything else as empty.
- Fractional JSON numbers: `JNumber` holds integers only. `.int` truncation is not modelled; only whether `timestamp` yields an int matters.
- The outbound POST (lines 177-191): its URL with the access token, encoding and asynchronous completion are network I/O. A send is recorded as `Send(Outbound(recipient, text))`, whose body is `SendBody`. Success or failure affects nothing.
- Logging and `print`, and the fields read only for logging (`recipient.id`, `timestamp` and `optin.ref` in the authentication handler, `mid` beyond its presence check).
- Strings are compared code point by code point, while Swift's `==` on `String` treats canonically equivalent Unicode strings as equal. This matters only for the two token comparisons: `hub.verify_token` against the validation token (line 60) and the pushed `pageAccessToken` against the configured one (line 137). A token that matches only up to canonical equivalence (for example "café" precomposed against "cafe" plus a combining accent) is accepted by the source and rejected by the model. The other compared texts ("subscribe", "page", the four keywords) are ASCII, where the two agree.
- The host callback `messageNotification`: a pure function of (sender, text). A host whose answers depend on earlier calls is not captured.
- `Webhook.ValidateToken`: a successful handshake without `hub.challenge` crashes the source on a force unwrap. The model requires the challenge in that case instead of modelling the crash.
- The empty stubs `sendImageMessage`, `sendButtonMessage`, `sendGenericMessage`, `sendReceiptMessage` (lines 195-198), `receivedDeliveryConfirmation` and `receivedPostback` (lines 291-292) have no members of their own. They appear as the no-effect outcome `Unsupported` and as the empty branches of `Dispatch` and `ItemEffects`.
