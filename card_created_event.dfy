/** The event for a newly created card. */
module CardCreatedEvent {
  import opened Wrappers
  import opened PhpValue
  import opened MuseWalletWebhookEvent

  /** `getCardId()`: `data.card_id`, or null. */
  function GetCardId(e: WebhookEvent): Result<Option<string>, string>
    requires e.kind == CardCreated
  {
    Text(e, "card_id")
  }

  /** `getUserId()`: `data.user_id`, or null. */
  function GetUserId(e: WebhookEvent): Result<Option<string>, string>
    requires e.kind == CardCreated
  {
    Text(e, "user_id")
  }

  /** `getCardStatus()`: `data.status`, or null. */
  function GetCardStatus(e: WebhookEvent): Result<Option<string>, string>
    requires e.kind == CardCreated
  {
    Text(e, "status")
  }

  /** Each getter returns the text stored under its key in the payload's `data` array. */
  lemma GettersReadData(e: WebhookEvent, data: Array)
    requires e.kind == CardCreated
    requires Isset(e.payload, "data") == Some(Arr(data))
    ensures forall s :: Isset(data, "card_id") == Some(Str(s)) ==> GetCardId(e) == Ok(Some(s))
    ensures Isset(data, "card_id").None? ==> GetCardId(e) == Ok(None)
    ensures forall s :: Isset(data, "user_id") == Some(Str(s)) ==> GetUserId(e) == Ok(Some(s))
    ensures Isset(data, "user_id").None? ==> GetUserId(e) == Ok(None)
    ensures forall s :: Isset(data, "status") == Some(Str(s)) ==> GetCardStatus(e) == Ok(Some(s))
    ensures Isset(data, "status").None? ==> GetCardStatus(e) == Ok(None)
  {
  }

  /** Without a `data` array every getter answers null. */
  lemma NoDataAllNull(e: WebhookEvent)
    requires e.kind == CardCreated
    requires Isset(e.payload, "data").None? || !Isset(e.payload, "data").value.Arr?
    ensures GetCardId(e) == Ok(None) && GetUserId(e) == Ok(None) && GetCardStatus(e) == Ok(None)
  {
  }
}
