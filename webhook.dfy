/**
  The decisions of the Facebook Messenger webhook adapter, as functions of the
  request, the configuration and the host's notification callback.

  What the adapter does to the outside world is a trace of `Effect`s: a
  consultation of the host callback (`Notify`) or a message posted to the
  Send API (`Send`). Each handler is specified by the effects it contributes.
*/
module Webhook {
  import opened Wrappers
  import opened Json

  // HTTP status codes the adapter answers with
  const OK: int := 200
  const BadRequest: int := 400
  const Forbidden: int := 403

  // Query parameters of the subscription handshake
  const ModeKey: string := "hub.mode"
  const VerifyTokenKey: string := "hub.verify_token"
  const ChallengeKey: string := "hub.challenge"

  // Fixed reply texts
  const AuthenticationText: string := "Authentication successful"
  const AttachmentText: string := "Message with attachment received"
  const UnexpectedText: string := "Message unexpected received"

  datatype Response = Response(status: int, body: Option<string>)

  /** A POST body: nothing was read, or the bytes read, parsed (bytes that are not JSON parse to `JNull`). */
  datatype Body = Empty | Parsed(json: Json)

  /** A text message for the Send API. */
  datatype Outbound = Outbound(recipientId: string, text: string)

  datatype Effect =
    | Notify(senderId: string, text: string)  // the host callback was consulted
    | Send(message: Outbound)                 // a message was posted to the Send API

  /** The host's `messageNotification`: sender id and text to an optional reply. */
  type Notification = (string, string) -> Option<string>

  // ---------------------------------------------------------------------------
  // Subscription handshake (GET)

  predicate HandshakeAccepted(query: map<string, string>, validationToken: string) {
    && ModeKey in query && query[ModeKey] == "subscribe"
    && VerifyTokenKey in query && query[VerifyTokenKey] == validationToken
  }

  /**
    The answer to the handshake. A successful handshake echoes the challenge,
    which the adapter force-unwraps: a caller must supply it in that case.
  */
  function ValidateToken(query: map<string, string>, validationToken: string): (r: Response)
    requires HandshakeAccepted(query, validationToken) ==> ChallengeKey in query
    ensures r.status == OK <==> HandshakeAccepted(query, validationToken)
    ensures r.status == OK ==> r.body == Some(query[ChallengeKey])
    ensures r.status != OK ==> r == Response(Forbidden, None)
  {
    if ModeKey in query && query[ModeKey] == "subscribe"
       && VerifyTokenKey in query && query[VerifyTokenKey] == validationToken
    then Response(OK, Some(query[ChallengeKey]))
    else Response(Forbidden, None)
  }

  // ---------------------------------------------------------------------------
  // Classification of a messaging item

  datatype Category = Authentication | Message | DeliveryConfirmation | Postback | Unknown

  predicate Has(item: Json, key: string) {
    Exists(Member(Some(item), key))
  }

  /** The handler a messaging item goes to: the first of optin, message, delivery, postback present. */
  function Classify(item: Json): (c: Category)
    ensures c == Authentication <==> Has(item, "optin")
    ensures c == Message <==> !Has(item, "optin") && Has(item, "message")
    ensures c == DeliveryConfirmation <==> !Has(item, "optin") && !Has(item, "message") && Has(item, "delivery")
    ensures c == Postback <==>
      !Has(item, "optin") && !Has(item, "message") && !Has(item, "delivery") && Has(item, "postback")
    ensures c == Unknown <==>
      !Has(item, "optin") && !Has(item, "message") && !Has(item, "delivery") && !Has(item, "postback")
  {
    if Has(item, "optin") then Authentication
    else if Has(item, "message") then Message
    else if Has(item, "delivery") then DeliveryConfirmation
    else if Has(item, "postback") then Postback
    else Unknown
  }

  // ---------------------------------------------------------------------------
  // Fields the handlers read

  function SenderId(item: Json): Option<string> {
    AsString(Member(Member(Some(item), "sender"), "id"))
  }

  function RecipientId(item: Json): Option<string> {
    AsString(Member(Member(Some(item), "recipient"), "id"))
  }

  function Timestamp(item: Json): Option<int> {
    AsInt(Member(Some(item), "timestamp"))
  }

  function MessageText(item: Json): Option<string> {
    AsString(Member(Member(Some(item), "message"), "text"))
  }

  function MessageMid(item: Json): Option<string> {
    AsString(Member(Member(Some(item), "message"), "mid"))
  }

  function MessageAttachments(item: Json): Option<string> {
    AsString(Member(Member(Some(item), "message"), "attachments"))
  }

  /** The five fields the message handler insists on, each present with its type. */
  predicate MessageFieldsPresent(item: Json) {
    && SenderId(item).Some? && RecipientId(item).Some? && Timestamp(item).Some?
    && MessageText(item).Some? && MessageMid(item).Some?
  }

  // ---------------------------------------------------------------------------
  // Authentication handler

  /** An authentication is acknowledged to its sender, when there is one. */
  function AuthenticationEffects(item: Json): (r: seq<Effect>)
    ensures |r| <= 1
    ensures r == [] <==> SenderId(item).None?
    ensures r != [] ==> r == [Send(Outbound(SenderId(item).value, AuthenticationText))]
  {
    var sender := SenderId(item);
    if sender.Some? then [Send(Outbound(sender.value, AuthenticationText))] else []
  }

  // ---------------------------------------------------------------------------
  // Message handler

  /** The message kinds the adapter recognises by keyword but does not implement. */
  datatype Keyword = Image | Button | Generic | Receipt

  /** The case-sensitive keyword match of the message text. */
  function KeywordOf(text: string): (r: Option<Keyword>)
    ensures r.Some? <==> text in {"image", "button", "generic", "receipt"}
    ensures r == Some(Image) <==> text == "image"
    ensures r == Some(Button) <==> text == "button"
    ensures r == Some(Generic) <==> text == "generic"
    ensures r == Some(Receipt) <==> text == "receipt"
  {
    if text == "image" then Some(Image)
    else if text == "button" then Some(Button)
    else if text == "generic" then Some(Generic)
    else if text == "receipt" then Some(Receipt)
    else None
  }

  /** The branch the message handler takes. */
  datatype MessageOutcome =
    | Dropped                                                   // a required field is missing
    | Unsupported(kind: Keyword, senderId: string)              // keyword reply not implemented
    | Forwarded(senderId: string, text: string, reply: Option<string>)
    | AttachmentAck(senderId: string)
    | UnexpectedAck(senderId: string)

  /**
    The message handler's decision, branch for branch. Its guard already
    demands a text, so the attachment and "unexpected" branches are dead.
  */
  function DecideMessage(item: Json, notify: Notification): (o: MessageOutcome)
    ensures o.Dropped? <==> !MessageFieldsPresent(item)
    ensures !o.AttachmentAck? && !o.UnexpectedAck?
    ensures o.Unsupported? <==> MessageFieldsPresent(item) && KeywordOf(MessageText(item).value).Some?
    ensures o.Unsupported? ==> o == Unsupported(KeywordOf(MessageText(item).value).value, SenderId(item).value)
    ensures o.Forwarded? ==>
      && o.senderId == SenderId(item).value && o.text == MessageText(item).value
      && o.reply == notify(o.senderId, o.text)
  {
    var sender := SenderId(item);
    var msgText := MessageText(item);
    if sender.None? || RecipientId(item).None? || Timestamp(item).None? || msgText.None? || MessageMid(item).None?
    then Dropped
    else
      var senderId := sender.value;
      var text := msgText.value;
      // the handler reads the text a second time before the keyword switch
      var messageText := MessageText(item);
      if messageText.Some? then
        match KeywordOf(messageText.value)
        case Some(k) => Unsupported(k, senderId)
        case None => Forwarded(senderId, text, notify(senderId, text))
      else if MessageAttachments(item).Some? then AttachmentAck(senderId)
      else UnexpectedAck(senderId)
  }

  /** What each branch of the message handler does. */
  function OutcomeEffects(o: MessageOutcome): (r: seq<Effect>)
    ensures r == [] <==> o.Dropped? || o.Unsupported?
    ensures !o.Forwarded? ==> |r| <= 1 && (r != [] ==> r[0].Send? && r[0].message.recipientId == o.senderId)
    ensures o.Forwarded? ==> r[0] == Notify(o.senderId, o.text) && (|r| == 2 <==> o.reply.Some?)
    ensures o.Forwarded? && o.reply.Some? ==> r[1] == Send(Outbound(o.senderId, o.reply.value))
    ensures o.Forwarded? && o.reply.None? ==> r == [Notify(o.senderId, o.text)]
  {
    match o
    case Dropped => []
    case Unsupported(_, _) => []  // sendImageMessage and its siblings are empty
    case Forwarded(sender, text, reply) =>
      [Notify(sender, text)] + (if reply.Some? then [Send(Outbound(sender, reply.value))] else [])
    case AttachmentAck(sender) => [Send(Outbound(sender, AttachmentText))]
    case UnexpectedAck(sender) => [Send(Outbound(sender, UnexpectedText))]
  }

  // ---------------------------------------------------------------------------
  // Dispatch of a whole delivery (POST)

  /** The effects of one messaging item: those of the one handler it is routed to. */
  function ItemEffects(item: Json, notify: Notification): (r: seq<Effect>)
    ensures Classify(item) !in {Authentication, Message} ==> r == []
    ensures Classify(item) == Authentication ==> r == AuthenticationEffects(item)
    ensures Classify(item) == Message ==> r == OutcomeEffects(DecideMessage(item, notify))
    ensures forall e | e in r && e.Send? :: SenderId(item) == Some(e.message.recipientId)
  {
    match Classify(item)
    case Authentication => AuthenticationEffects(item)
    case Message => OutcomeEffects(DecideMessage(item, notify))
    case DeliveryConfirmation => []  // receivedDeliveryConfirmation is empty
    case Postback => []              // receivedPostback is empty
    case Unknown => []               // only logged
  }

  /** `f` applied to each element in turn, the results concatenated in order. */
  function FlatMap<T, U>(xs: seq<T>, f: T -> seq<U>): seq<U>
    decreases |xs|
  {
    if xs == [] then [] else FlatMap(xs[..|xs| - 1], f) + f(xs[|xs| - 1])
  }

  /** The effects of a sequence of items, handled in order. */
  function ItemsEffects(items: seq<Json>, notify: Notification): seq<Effect> {
    FlatMap(items, (item: Json) => ItemEffects(item, notify))
  }

  predicate IsPage(json: Json)
    ensures IsPage(json) <==> json.JObject? && "object" in json.fields && json.fields["object"] == JString("page")
  {
    Member(Some(json), "object") == Some(JString("page"))
  }

  function Entries(json: Json): seq<Json> {
    Elements(Member(Some(json), "entry"))
  }

  function Messaging(entry: Json): seq<Json> {
    Elements(Member(Some(entry), "messaging"))
  }

  /** The messaging items of a batch of entries, entry by entry and in order within each. */
  function EntryItems(entries: seq<Json>): seq<Json> {
    FlatMap(entries, Messaging)
  }

  /** The messaging items a POST body delivers to the handlers. */
  function DeliveredItems(body: Body): (r: seq<Json>)
    ensures !(body.Parsed? && IsPage(body.json)) ==> r == []
    ensures body.Parsed? && IsPage(body.json) ==> r == EntryItems(Entries(body.json))
  {
    if body.Parsed? && IsPage(body.json) then EntryItems(Entries(body.json)) else []
  }

  /** The effects of one webhook delivery. */
  function RequestEffects(body: Body, notify: Notification): seq<Effect> {
    ItemsEffects(DeliveredItems(body), notify)
  }

  // ---------------------------------------------------------------------------
  // Send API request shape

  /** `{"recipient":{"id":r},"message":{"text":t}}` */
  function SendBody(m: Outbound): (j: Json)
    ensures j.JObject? && j.fields.Keys == {"recipient", "message"}
    ensures ReadSendBody(j) == Some(m)
  {
    JObject(map[
      "recipient" := JObject(map["id" := JString(m.recipientId)]),
      "message" := JObject(map["text" := JString(m.text)])])
  }

  /** How the Send API reads a text message out of a request body. */
  function ReadSendBody(j: Json): Option<Outbound> {
    var r := AsString(Member(Member(Some(j), "recipient"), "id"));
    var t := AsString(Member(Member(Some(j), "message"), "text"));
    if r.Some? && t.Some? then Some(Outbound(r.value, t.value)) else None
  }

  // ---------------------------------------------------------------------------
  // Push-send endpoint (POST to the optional send path)

  datatype PushOutcome = Accepted(message: Outbound) | NoBody | InvalidFields | TokenMismatch

  function PushRecipient(j: Json): Option<string> { AsString(Member(Some(j), "recipientId")) }
  function PushText(j: Json): Option<string> { AsString(Member(Some(j), "messageText")) }
  function PushToken(j: Json): Option<string> { AsString(Member(Some(j), "pageAccessToken")) }

  predicate PushFieldsPresent(j: Json) {
    PushRecipient(j).Some? && PushText(j).Some? && PushToken(j).Some?
  }

  /** The push endpoint's decision on a body, given the configured page access token. */
  function PushSend(body: Body, pageAccessToken: string): (o: PushOutcome)
    ensures o.Accepted? <==> body.Parsed? && PushFieldsPresent(body.json) && PushToken(body.json) == Some(pageAccessToken)
    ensures o.Accepted? ==> o.message == Outbound(PushRecipient(body.json).value, PushText(body.json).value)
    ensures o == NoBody <==> body.Empty?
    ensures o == InvalidFields <==> body.Parsed? && !PushFieldsPresent(body.json)
    ensures o == TokenMismatch <==>
      body.Parsed? && PushFieldsPresent(body.json) && PushToken(body.json).value != pageAccessToken
  {
    match body
    case Empty => NoBody
    case Parsed(json) =>
      var recipient, text, token := PushRecipient(json), PushText(json), PushToken(json);
      if recipient.Some? && text.Some? && token.Some? then
        if token.value == pageAccessToken then Accepted(Outbound(recipient.value, text.value))
        else TokenMismatch
      else InvalidFields
  }

  /** The push endpoint answers 200 for an accepted message and 400 otherwise, without a body. */
  function PushResponse(o: PushOutcome): (r: Response)
    ensures r.body == None
    ensures r.status == OK <==> o.Accepted?
    ensures r.status != OK ==> r.status == BadRequest
  {
    if o.Accepted? then Response(OK, None) else Response(BadRequest, None)
  }
}
