/** The event for a completed card top-up. */
module TopUpCompletedEvent {
  import opened Wrappers
  import opened PhpValue
  import opened MuseWalletWebhookEvent

  /** `getTopUpId()`: `data.topup_id`, else `data.request_id`, else null. */
  function GetTopUpId(e: WebhookEvent): Result<Option<string>, string>
    requires e.kind == TopUpCompleted
  {
    TextOr(e, "topup_id", "request_id")
  }

  /** `getCardId()`: `data.card_id`, or null. */
  function GetCardId(e: WebhookEvent): Result<Option<string>, string>
    requires e.kind == TopUpCompleted
  {
    Text(e, "card_id")
  }

  /** `getUserId()`: `data.user_id`, or null. */
  function GetUserId(e: WebhookEvent): Result<Option<string>, string>
    requires e.kind == TopUpCompleted
  {
    Text(e, "user_id")
  }

  /** `getCurrency()`: `data.currency`, or null. */
  function GetCurrency(e: WebhookEvent): Result<Option<string>, string>
    requires e.kind == TopUpCompleted
  {
    Text(e, "currency")
  }

  /** `getAmount()` converts `data.amount` to a float unless it is missing or null; the
      value before conversion. */
  function GetAmount(e: WebhookEvent): Option<Value>
    requires e.kind == TopUpCompleted
  {
    DataField(e, "amount")
  }

  /** Each getter returns the text stored under its key in the payload's `data` array.
      A getter with a fallback key reads it only when the first key is missing or null,
      and answers null when both are. */
  lemma GettersReadData(e: WebhookEvent, data: Array)
    requires e.kind == TopUpCompleted
    requires Isset(e.payload, "data") == Some(Arr(data))
    ensures forall s :: Isset(data, "topup_id") == Some(Str(s)) ==> GetTopUpId(e) == Ok(Some(s))
    ensures forall s :: Isset(data, "topup_id").None? && Isset(data, "request_id") == Some(Str(s)) ==>
                          GetTopUpId(e) == Ok(Some(s))
    ensures Isset(data, "topup_id").None? && Isset(data, "request_id").None? ==> GetTopUpId(e) == Ok(None)
    ensures forall s :: Isset(data, "card_id") == Some(Str(s)) ==> GetCardId(e) == Ok(Some(s))
    ensures Isset(data, "card_id").None? ==> GetCardId(e) == Ok(None)
    ensures forall s :: Isset(data, "user_id") == Some(Str(s)) ==> GetUserId(e) == Ok(Some(s))
    ensures Isset(data, "user_id").None? ==> GetUserId(e) == Ok(None)
    ensures forall s :: Isset(data, "currency") == Some(Str(s)) ==> GetCurrency(e) == Ok(Some(s))
    ensures Isset(data, "currency").None? ==> GetCurrency(e) == Ok(None)
    ensures GetAmount(e).None? <==> Isset(data, "amount").None?
  {
  }

  /** Without a `data` array every getter answers null and there is no amount. */
  lemma NoDataAllNull(e: WebhookEvent)
    requires e.kind == TopUpCompleted
    requires Isset(e.payload, "data").None? || !Isset(e.payload, "data").value.Arr?
    ensures GetTopUpId(e) == Ok(None) && GetCardId(e) == Ok(None) && GetUserId(e) == Ok(None) && GetCurrency(e) == Ok(None)
    ensures GetAmount(e).None?
  {
  }
}
