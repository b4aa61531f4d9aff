/** Properties of the webhook adapter's decisions. */
module WebhookProperties {
  import opened Wrappers
  import opened Json
  import opened Webhook

  // ---------------------------------------------------------------------------
  // Classification: a table-driven reference definition of the priority order

  const Priority: seq<(string, Category)> :=
    [("optin", Authentication), ("message", Message), ("delivery", DeliveryConfirmation), ("postback", Postback)]

  /** The category of the first key of `table` present in `item`, or `Unknown`. */
  function FirstPresent(item: Json, table: seq<(string, Category)>): Category
    decreases |table|
  {
    if table == [] then Unknown
    else if Has(item, table[0].0) then table[0].1
    else FirstPresent(item, table[1..])
  }

  /** Classification is "first match wins" over optin, message, delivery, postback. */
  lemma ClassifyIsFirstMatch(item: Json)
    ensures Classify(item) == FirstPresent(item, Priority)
  {
  }

  /** A delivery, a postback and an unrecognised item are acknowledged and cause nothing. */
  lemma SilentCategories(item: Json, notify: Notification)
    requires Classify(item) in {DeliveryConfirmation, Postback, Unknown}
    ensures ItemEffects(item, notify) == []
  {
  }

  // ---------------------------------------------------------------------------
  // Handlers

  /** An optin item is answered once, to its sender, when its sender id is a string; otherwise not at all. */
  lemma AuthenticationReply(item: Json, notify: Notification)
    requires Has(item, "optin")
    ensures SenderId(item).Some? ==> ItemEffects(item, notify) == [Send(Outbound(SenderId(item).value, AuthenticationText))]
    ensures SenderId(item).None? ==> ItemEffects(item, notify) == []
  {
  }

  /**
    A message item does something only when all five fields are present and
    the text is not one of the four keywords; it then consults the callback
    with the sender and text, and sends back whatever reply it gives, even an
    empty one.
  */
  lemma MessageReply(item: Json, notify: Notification)
    requires Classify(item) == Message
    ensures ItemEffects(item, notify) == [] <==>
      !MessageFieldsPresent(item) || KeywordOf(MessageText(item).value).Some?
    ensures MessageFieldsPresent(item) && KeywordOf(MessageText(item).value).None? ==>
      var sender, text := SenderId(item).value, MessageText(item).value;
      var reply := notify(sender, text);
      ItemEffects(item, notify) ==
        [Notify(sender, text)] + (if reply.Some? then [Send(Outbound(sender, reply.value))] else [])
  {
  }

  /** The keyword texts are matched exactly: "image", "button", "generic" and "receipt", nothing else. */
  lemma KeywordsExact(text: string)
    ensures KeywordOf(text).Some? <==> text in {"image", "button", "generic", "receipt"}
  {
  }

  /**
    Every message the adapter sends goes to the sender of one of the handled
    items, and carries either the authentication acknowledgment or the reply
    the host callback gave to that same item's text.
  */
  lemma {:induction false} SendProvenance(items: seq<Json>, notify: Notification)
    ensures forall e | e in ItemsEffects(items, notify) && e.Send? ::
      exists x :: x in items && SentFor(x, e, notify)
    decreases |items|
  {
    if items != [] {
      var init, last := items[..|items| - 1], items[|items| - 1];
      SendProvenance(init, notify);
      forall e | e in ItemsEffects(items, notify) && e.Send?
        ensures exists x :: x in items && SentFor(x, e, notify)
      {
        if e in ItemsEffects(init, notify) {
          var x :| x in init && SentFor(x, e, notify);
          assert x in items;
        } else {
          assert e in ItemEffects(last, notify);
          ItemSendProvenance(last, notify, e);
          assert last in items;
        }
      }
    }
  }

  /** `e` is a message the handling of `x` may send: to its sender, with the acknowledgment or the reply to its text. */
  predicate SentFor(x: Json, e: Effect, notify: Notification)
    requires e.Send?
  {
    && SenderId(x) == Some(e.message.recipientId)
    && (e.message.text == AuthenticationText
        || (MessageText(x).Some? && notify(e.message.recipientId, MessageText(x).value) == Some(e.message.text)))
  }

  lemma ItemSendProvenance(item: Json, notify: Notification, e: Effect)
    requires e in ItemEffects(item, notify) && e.Send?
    ensures SentFor(item, e, notify)
  {
  }

  /**
    The attachment and "unexpected" replies are dead code: unless the host
    callback itself answers with one of those texts, no delivery ever sends them.
  */
  lemma NoAttachmentOrUnexpectedReply(body: Body, notify: Notification)
    requires forall s, t :: notify(s, t) != Some(AttachmentText) && notify(s, t) != Some(UnexpectedText)
    ensures forall e | e in RequestEffects(body, notify) && e.Send? ::
      e.message.text != AttachmentText && e.message.text != UnexpectedText
  {
    SendProvenance(DeliveredItems(body), notify);
  }

  // ---------------------------------------------------------------------------
  // Dispatch of a delivery: order and bad input

  /** Flattening a concatenation concatenates the flattened parts. */
  lemma {:induction false} FlatMapAppend<T, U>(a: seq<T>, b: seq<T>, f: T -> seq<U>)
    ensures FlatMap(a + b, f) == FlatMap(a, f) + FlatMap(b, f)
    decreases |b|
  {
    if b == [] {
      assert a + b == a;
    } else {
      var b' := b[..|b| - 1];
      assert (a + b)[..|a + b| - 1] == a + b';
      assert (a + b)[|a + b| - 1] == b[|b| - 1];
      FlatMapAppend(a, b', f);
    }
  }

  /** Handling items one after another: the effects of a concatenation concatenate. */
  lemma ItemsEffectsAppend(a: seq<Json>, b: seq<Json>, notify: Notification)
    ensures ItemsEffects(a + b, notify) == ItemsEffects(a, notify) + ItemsEffects(b, notify)
  {
    FlatMapAppend(a, b, (item: Json) => ItemEffects(item, notify));
  }

  lemma EntryItemsAppend(a: seq<Json>, b: seq<Json>)
    ensures EntryItems(a + b) == EntryItems(a) + EntryItems(b)
  {
    FlatMapAppend(a, b, Messaging);
  }

  /** Appending in two steps is appending once: the step the handler loops take. */
  lemma AppendAssoc<T>(a: seq<T>, b: seq<T>, c: seq<T>)
    ensures (a + b) + c == a + (b + c)
  {
  }

  /** One more item handled: its effects come after those of the items before it. */
  lemma ItemsEffectsSnoc(items: seq<Json>, k: nat, notify: Notification)
    requires k < |items|
    ensures ItemsEffects(items[..k + 1], notify) == ItemsEffects(items[..k], notify) + ItemEffects(items[k], notify)
  {
    assert items[..k + 1][..k] == items[..k];
  }

  /** One more entry handled: its items' effects come after those of the entries before it. */
  lemma EntryItemsSnoc(entries: seq<Json>, i: nat, notify: Notification)
    requires i < |entries|
    ensures ItemsEffects(EntryItems(entries[..i + 1]), notify) ==
      ItemsEffects(EntryItems(entries[..i]), notify) + ItemsEffects(Messaging(entries[i]), notify)
  {
    assert entries[..i + 1][..i] == entries[..i];
    ItemsEffectsAppend(EntryItems(entries[..i]), Messaging(entries[i]), notify);
  }

  /** Item `k` is handled after every earlier item and before every later one. */
  lemma ItemOrder(items: seq<Json>, k: nat, notify: Notification)
    requires k < |items|
    ensures ItemsEffects(items, notify) ==
      ItemsEffects(items[..k], notify) + ItemEffects(items[k], notify) + ItemsEffects(items[k + 1..], notify)
  {
    assert items == items[..k] + [items[k]] + items[k + 1..];
    ItemsEffectsAppend(items[..k] + [items[k]], items[k + 1..], notify);
    ItemsEffectsAppend(items[..k], [items[k]], notify);
    assert [items[k]][..0] == [];
  }

  /** The items of entry `i` are handled after those of every earlier entry and before those of every later one. */
  lemma EntryOrder(entries: seq<Json>, i: nat, notify: Notification)
    requires i < |entries|
    ensures ItemsEffects(EntryItems(entries), notify) ==
      ItemsEffects(EntryItems(entries[..i]), notify)
      + ItemsEffects(Messaging(entries[i]), notify)
      + ItemsEffects(EntryItems(entries[i + 1..]), notify)
  {
    assert entries == entries[..i] + [entries[i]] + entries[i + 1..];
    EntryItemsAppend(entries[..i] + [entries[i]], entries[i + 1..]);
    EntryItemsAppend(entries[..i], [entries[i]]);
    assert [entries[i]][..0] == [];
    assert EntryItems([entries[i]]) == Messaging(entries[i]);
    ItemsEffectsAppend(EntryItems(entries[..i]) + Messaging(entries[i]), EntryItems(entries[i + 1..]), notify);
    ItemsEffectsAppend(EntryItems(entries[..i]), Messaging(entries[i]), notify);
  }

  /** A "page" body delivers the messaging items of its entries, entry by entry. */
  lemma PageRequestEffects(body: Body, notify: Notification)
    requires body.Parsed? && IsPage(body.json)
    ensures RequestEffects(body, notify) == ItemsEffects(EntryItems(Entries(body.json)), notify)
  {
  }

  /** An empty body, or one whose `object` is not the string "page", reaches no handler. */
  lemma NoDispatchOnBadInput(body: Body, notify: Notification)
    requires body.Empty? || !IsPage(body.json)
    ensures DeliveredItems(body) == []
    ensures RequestEffects(body, notify) == []
  {
  }

  /** Bytes that are not JSON parse to null: no dispatch, and the push endpoint rejects them. */
  lemma UnparseableBody(notify: Notification, pageAccessToken: string)
    ensures RequestEffects(Parsed(JNull), notify) == []
    ensures PushSend(Parsed(JNull), pageAccessToken) == InvalidFields
  {
  }

  // ---------------------------------------------------------------------------
  // Send API body

  /** The request body built for a message carries exactly that recipient and text. */
  lemma SendBodyRoundTrip(m: Outbound)
    ensures ReadSendBody(SendBody(m)) == Some(m)
    ensures SendBody(m).fields.Keys == {"recipient", "message"}
  {
  }

  // ---------------------------------------------------------------------------
  // Concrete deliveries

  function Obj1(k: string, v: Json): Json { JObject(map[k := v]) }

  /** An item carrying both optin and message is an authentication and gets only the authentication reply. */
  lemma OptinBeatsMessage(item: Json, notify: Notification)
    requires Has(item, "optin") && Has(item, "message")
    ensures Classify(item) == Authentication
    ensures ItemEffects(item, notify) == AuthenticationEffects(item)
  {
  }

  /** "hello" answered with "hi there" by the host is sent back to the sender. */
  lemma HelloIsAnswered(notify: Notification)
    requires notify("u", "hello") == Some("hi there")
    ensures var item := JObject(map[
        "sender" := Obj1("id", JString("u")), "recipient" := Obj1("id", JString("p")),
        "timestamp" := JNumber(1458692752478),
        "message" := JObject(map["mid" := JString("mid.1"), "text" := JString("hello")])]);
      ItemEffects(item, notify) == [Notify("u", "hello"), Send(Outbound("u", "hi there"))]
  {
  }

  /** A message item without a text, an attachment-only one among them, is dropped without a reply. */
  lemma AttachmentOnlyIsDropped(item: Json, notify: Notification)
    requires Classify(item) == Message && MessageText(item).None?
    ensures DecideMessage(item, notify) == Dropped
    ensures ItemEffects(item, notify) == []
  {
  }
}
