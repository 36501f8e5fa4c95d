/** The event for a settled card transaction. */
module TransactionCompletedEvent {
  import opened Wrappers
  import opened PhpValue
  import opened MuseWalletWebhookEvent

  /** `getTransactionId()`: `data.transaction_id`, or null. */
  function GetTransactionId(e: WebhookEvent): Result<Option<string>, string>
    requires e.kind == TransactionCompleted
  {
    Text(e, "transaction_id")
  }

  /** `getCardId()`: `data.card_id`, or null. */
  function GetCardId(e: WebhookEvent): Result<Option<string>, string>
    requires e.kind == TransactionCompleted
  {
    Text(e, "card_id")
  }

  /** `getUserId()`: `data.user_id`, or null. */
  function GetUserId(e: WebhookEvent): Result<Option<string>, string>
    requires e.kind == TransactionCompleted
  {
    Text(e, "user_id")
  }

  /** `getCurrency()`: `data.currency`, or null. */
  function GetCurrency(e: WebhookEvent): Result<Option<string>, string>
    requires e.kind == TransactionCompleted
  {
    Text(e, "currency")
  }

  /** `getMerchantName()`: `data.merchant_name`, or null. */
  function GetMerchantName(e: WebhookEvent): Result<Option<string>, string>
    requires e.kind == TransactionCompleted
  {
    Text(e, "merchant_name")
  }

  /** `getAmount()` converts `data.amount` to a float unless it is missing or null; the
      value before conversion. */
  function GetAmount(e: WebhookEvent): Option<Value>
    requires e.kind == TransactionCompleted
  {
    DataField(e, "amount")
  }

  /** Each getter returns the text stored under its key in the payload's `data` array. */
  lemma GettersReadData(e: WebhookEvent, data: Array)
    requires e.kind == TransactionCompleted
    requires Isset(e.payload, "data") == Some(Arr(data))
    ensures forall s :: Isset(data, "transaction_id") == Some(Str(s)) ==> GetTransactionId(e) == Ok(Some(s))
    ensures Isset(data, "transaction_id").None? ==> GetTransactionId(e) == Ok(None)
    ensures forall s :: Isset(data, "card_id") == Some(Str(s)) ==> GetCardId(e) == Ok(Some(s))
    ensures Isset(data, "card_id").None? ==> GetCardId(e) == Ok(None)
    ensures forall s :: Isset(data, "user_id") == Some(Str(s)) ==> GetUserId(e) == Ok(Some(s))
    ensures Isset(data, "user_id").None? ==> GetUserId(e) == Ok(None)
    ensures forall s :: Isset(data, "currency") == Some(Str(s)) ==> GetCurrency(e) == Ok(Some(s))
    ensures Isset(data, "currency").None? ==> GetCurrency(e) == Ok(None)
    ensures forall s :: Isset(data, "merchant_name") == Some(Str(s)) ==> GetMerchantName(e) == Ok(Some(s))
    ensures Isset(data, "merchant_name").None? ==> GetMerchantName(e) == Ok(None)
    ensures GetAmount(e).None? <==> Isset(data, "amount").None?
  {
  }

  /** Without a `data` array every getter answers null and there is no amount. */
  lemma NoDataAllNull(e: WebhookEvent)
    requires e.kind == TransactionCompleted
    requires Isset(e.payload, "data").None? || !Isset(e.payload, "data").value.Arr?
    ensures GetTransactionId(e) == Ok(None) && GetCardId(e) == Ok(None) && GetUserId(e) == Ok(None) && GetCurrency(e) == Ok(None) && GetMerchantName(e) == Ok(None)
    ensures GetAmount(e).None?
  {
  }
}
