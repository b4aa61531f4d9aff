/**
  The adapter object: read-only configuration, the host callback, and the
  trace of effects its handlers append to.
*/
module Messenger {
  import opened Wrappers
  import opened Json
  import opened Webhook
  import WebhookProperties

  class FacebookMessenger {
    const validationToken: string
    const pageAccessToken: string
    const notify: Notification
    /** Everything the adapter has done so far, oldest first. */
    var effects: seq<Effect>

    constructor (validationToken: string, pageAccessToken: string, notify: Notification)
      ensures this.validationToken == validationToken && this.pageAccessToken == pageAccessToken
      ensures this.notify == notify
      ensures effects == []
    {
      this.validationToken := validationToken;
      this.pageAccessToken := pageAccessToken;
      this.notify := notify;
      effects := [];
    }

    /** Posts `{"recipient":{"id":…},"message":{"text":…}}` to the Send API; completion is not awaited. */
    method SendTextMessage(recipientId: string, text: string)
      modifies this
      ensures effects == old(effects) + [Send(Outbound(recipientId, text))]
    {
      effects := effects + [Send(Outbound(recipientId, text))];
    }

    /** The handshake, answered with the configured validation token. */
    method ValidateTokenHandler(query: map<string, string>) returns (r: Response)
      requires HandshakeAccepted(query, validationToken) ==> ChallengeKey in query
      ensures r.status == OK <==> HandshakeAccepted(query, validationToken)
      ensures r.status == OK ==> r.body == Some(query[ChallengeKey])
      ensures r.status != OK ==> r == Response(Forbidden, None)
    {
      r := ValidateToken(query, validationToken);
    }

    method ReceivedAuthentication(item: Json)
      modifies this
      ensures effects == old(effects) + AuthenticationEffects(item)
    {
      var sender := SenderId(item);
      if sender.Some? {
        SendTextMessage(sender.value, AuthenticationText);
      }
    }

    method ReceivedMessage(item: Json)
      modifies this
      ensures effects == old(effects) + OutcomeEffects(DecideMessage(item, notify))
    {
      var outcome := DecideMessage(item, notify);
      Perform(outcome);
    }

    /** Carries out a branch of the message handler. */
    method Perform(o: MessageOutcome)
      modifies this
      ensures effects == old(effects) + OutcomeEffects(o)
    {
      match o
      case Dropped =>
      case Unsupported(_, _) =>
      case Forwarded(sender, text, reply) =>
        effects := effects + [Notify(sender, text)];
        if reply.Some? {
          SendTextMessage(sender, reply.value);
        }
      case AttachmentAck(sender) =>
        SendTextMessage(sender, AttachmentText);
      case UnexpectedAck(sender) =>
        SendTextMessage(sender, UnexpectedText);
    }

    /** Routes one messaging item to its handler, the first of optin, message, delivery, postback present. */
    method Dispatch(item: Json)
      modifies this
      ensures effects == old(effects) + ItemEffects(item, notify)
    {
      if Has(item, "optin") {
        ReceivedAuthentication(item);
      } else if Has(item, "message") {
        ReceivedMessage(item);
      } else if Has(item, "delivery") {
        // receivedDeliveryConfirmation has an empty body
      } else if Has(item, "postback") {
        // receivedPostback has an empty body
      } else {
        // an unknown messaging event is only logged
      }
    }

    /** The inner loop of a delivery: the messaging items of one entry, in order. */
    method ProcessEntry(entry: Json)
      modifies this
      ensures effects == old(effects) + ItemsEffects(Messaging(entry), notify)
    {
      var messaging := Messaging(entry);
      var k := 0;
      while k < |messaging|
        invariant 0 <= k <= |messaging|
        invariant effects == old(effects) + ItemsEffects(messaging[..k], notify)
      {
        Dispatch(messaging[k]);
        WebhookProperties.ItemsEffectsSnoc(messaging, k, notify);
        WebhookProperties.AppendAssoc(old(effects), ItemsEffects(messaging[..k], notify), ItemEffects(messaging[k], notify));
        k := k + 1;
      }
      assert messaging[..k] == messaging;
    }

    /**
      A webhook delivery: every messaging item of every entry is handled in
      order, and the answer is 200 whatever the body held.
    */
    method ProcessRequest(body: Body) returns (r: Response)
      modifies this
      ensures r == Response(OK, None)
      ensures effects == old(effects) + RequestEffects(body, notify)
    {
      if body.Parsed? && IsPage(body.json) {
        var entries := Entries(body.json);
        var i := 0;
        while i < |entries|
          invariant 0 <= i <= |entries|
          invariant effects == old(effects) + ItemsEffects(EntryItems(entries[..i]), notify)
        {
          ProcessEntry(entries[i]);
          WebhookProperties.EntryItemsSnoc(entries, i, notify);
          WebhookProperties.AppendAssoc(
            old(effects), ItemsEffects(EntryItems(entries[..i]), notify), ItemsEffects(Messaging(entries[i]), notify));
          i := i + 1;
        }
        assert entries[..i] == entries;
        WebhookProperties.PageRequestEffects(body, notify);
      } else {
        WebhookProperties.NoDispatchOnBadInput(body, notify);
      }
      r := Response(OK, None);
    }

    /** The push endpoint: relays a message when the body carries it and the configured page access token. */
    method SendMessageHandler(body: Body) returns (r: Response)
      modifies this
      ensures r == PushResponse(PushSend(body, pageAccessToken))
      ensures PushSend(body, pageAccessToken).Accepted? ==>
        effects == old(effects) + [Send(PushSend(body, pageAccessToken).message)]
      ensures !PushSend(body, pageAccessToken).Accepted? ==> effects == old(effects)
    {
      match body
      case Empty =>
        r := Response(BadRequest, None);
      case Parsed(json) =>
        var recipient, text, token := PushRecipient(json), PushText(json), PushToken(json);
        if recipient.Some? && text.Some? && token.Some? {
          if token.value == pageAccessToken {
            SendTextMessage(recipient.value, text.value);
            r := Response(OK, None);
          } else {
            r := Response(BadRequest, None);
          }
        } else {
          r := Response(BadRequest, None);
        }
    }
  }
}
