/** The event for a card that became active. */
module CardActivatedEvent {
  import opened Wrappers
  import opened PhpValue
  import opened MuseWalletWebhookEvent

  /** `getCardId()`: `data.card_id`, or null. */
  function GetCardId(e: WebhookEvent): Result<Option<string>, string>
    requires e.kind == CardActivated
  {
    Text(e, "card_id")
  }

  /** `getUserId()`: `data.user_id`, or null. */
  function GetUserId(e: WebhookEvent): Result<Option<string>, string>
    requires e.kind == CardActivated
  {
    Text(e, "user_id")
  }

  /** `getActivatedAt()`: `data.activated_at`, or null. */
  function GetActivatedAt(e: WebhookEvent): Result<Option<string>, string>
    requires e.kind == CardActivated
  {
    Text(e, "activated_at")
  }

  /** Each getter returns the text stored under its key in the payload's `data` array. */
  lemma GettersReadData(e: WebhookEvent, data: Array)
    requires e.kind == CardActivated
    requires Isset(e.payload, "data") == Some(Arr(data))
    ensures forall s :: Isset(data, "card_id") == Some(Str(s)) ==> GetCardId(e) == Ok(Some(s))
    ensures Isset(data, "card_id").None? ==> GetCardId(e) == Ok(None)
    ensures forall s :: Isset(data, "user_id") == Some(Str(s)) ==> GetUserId(e) == Ok(Some(s))
    ensures Isset(data, "user_id").None? ==> GetUserId(e) == Ok(None)
    ensures forall s :: Isset(data, "activated_at") == Some(Str(s)) ==> GetActivatedAt(e) == Ok(Some(s))
    ensures Isset(data, "activated_at").None? ==> GetActivatedAt(e) == Ok(None)
  {
  }

  /** Without a `data` array every getter answers null. */
  lemma NoDataAllNull(e: WebhookEvent)
    requires e.kind == CardActivated
    requires Isset(e.payload, "data").None? || !Isset(e.payload, "data").value.Arr?
    ensures GetCardId(e) == Ok(None) && GetUserId(e) == Ok(None) && GetActivatedAt(e) == Ok(None)
  {
  }
}
