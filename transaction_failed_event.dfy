/** The event for a declined card transaction. */
module TransactionFailedEvent {
  import opened Wrappers
  import opened PhpValue
  import opened MuseWalletWebhookEvent

  /** `getTransactionId()`: `data.transaction_id`, or null. */
  function GetTransactionId(e: WebhookEvent): Result<Option<string>, string>
    requires e.kind == TransactionFailed
  {
    Text(e, "transaction_id")
  }

  /** `getCardId()`: `data.card_id`, or null. */
  function GetCardId(e: WebhookEvent): Result<Option<string>, string>
    requires e.kind == TransactionFailed
  {
    Text(e, "card_id")
  }

  /** `getUserId()`: `data.user_id`, or null. */
  function GetUserId(e: WebhookEvent): Result<Option<string>, string>
    requires e.kind == TransactionFailed
  {
    Text(e, "user_id")
  }

  /** `getFailureReason()`: `data.reason`, else `data.failure_reason`, else null. */
  function GetFailureReason(e: WebhookEvent): Result<Option<string>, string>
    requires e.kind == TransactionFailed
  {
    TextOr(e, "reason", "failure_reason")
  }

  /** `getAmount()` converts `data.amount` to a float unless it is missing or null; the
      value before conversion. */
  function GetAmount(e: WebhookEvent): Option<Value>
    requires e.kind == TransactionFailed
  {
    DataField(e, "amount")
  }

  /** Each getter returns the text stored under its key in the payload's `data` array.
      A getter with a fallback key reads it only when the first key is missing or null,
      and answers null when both are. */
  lemma GettersReadData(e: WebhookEvent, data: Array)
    requires e.kind == TransactionFailed
    requires Isset(e.payload, "data") == Some(Arr(data))
    ensures forall s :: Isset(data, "transaction_id") == Some(Str(s)) ==> GetTransactionId(e) == Ok(Some(s))
    ensures Isset(data, "transaction_id").None? ==> GetTransactionId(e) == Ok(None)
    ensures forall s :: Isset(data, "card_id") == Some(Str(s)) ==> GetCardId(e) == Ok(Some(s))
    ensures Isset(data, "card_id").None? ==> GetCardId(e) == Ok(None)
    ensures forall s :: Isset(data, "user_id") == Some(Str(s)) ==> GetUserId(e) == Ok(Some(s))
    ensures Isset(data, "user_id").None? ==> GetUserId(e) == Ok(None)
    ensures forall s :: Isset(data, "reason") == Some(Str(s)) ==> GetFailureReason(e) == Ok(Some(s))
    ensures forall s :: Isset(data, "reason").None? && Isset(data, "failure_reason") == Some(Str(s)) ==>
                          GetFailureReason(e) == Ok(Some(s))
    ensures Isset(data, "reason").None? && Isset(data, "failure_reason").None? ==> GetFailureReason(e) == Ok(None)
    ensures GetAmount(e).None? <==> Isset(data, "amount").None?
  {
  }

  /** Without a `data` array every getter answers null and there is no amount. */
  lemma NoDataAllNull(e: WebhookEvent)
    requires e.kind == TransactionFailed
    requires Isset(e.payload, "data").None? || !Isset(e.payload, "data").value.Arr?
    ensures GetTransactionId(e) == Ok(None) && GetCardId(e) == Ok(None) && GetUserId(e) == Ok(None) && GetFailureReason(e) == Ok(None)
    ensures GetAmount(e).None?
  {
  }
}
