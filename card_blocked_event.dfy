/** The event for a blocked card. The reason has no fallback key. */
module CardBlockedEvent {
  import opened Wrappers
  import opened PhpValue
  import opened MuseWalletWebhookEvent

  /** `getCardId()`: `data.card_id`, or null. */
  function GetCardId(e: WebhookEvent): Result<Option<string>, string>
    requires e.kind == CardBlocked
  {
    Text(e, "card_id")
  }

  /** `getUserId()`: `data.user_id`, or null. */
  function GetUserId(e: WebhookEvent): Result<Option<string>, string>
    requires e.kind == CardBlocked
  {
    Text(e, "user_id")
  }

  /** `getBlockReason()`: `data.reason`, or null. */
  function GetBlockReason(e: WebhookEvent): Result<Option<string>, string>
    requires e.kind == CardBlocked
  {
    Text(e, "reason")
  }

  /** `getBlockedAt()`: `data.blocked_at`, or null. */
  function GetBlockedAt(e: WebhookEvent): Result<Option<string>, string>
    requires e.kind == CardBlocked
  {
    Text(e, "blocked_at")
  }

  /** Each getter returns the text stored under its key in the payload's `data` array. */
  lemma GettersReadData(e: WebhookEvent, data: Array)
    requires e.kind == CardBlocked
    requires Isset(e.payload, "data") == Some(Arr(data))
    ensures forall s :: Isset(data, "card_id") == Some(Str(s)) ==> GetCardId(e) == Ok(Some(s))
    ensures Isset(data, "card_id").None? ==> GetCardId(e) == Ok(None)
    ensures forall s :: Isset(data, "user_id") == Some(Str(s)) ==> GetUserId(e) == Ok(Some(s))
    ensures Isset(data, "user_id").None? ==> GetUserId(e) == Ok(None)
    ensures forall s :: Isset(data, "reason") == Some(Str(s)) ==> GetBlockReason(e) == Ok(Some(s))
    ensures Isset(data, "reason").None? ==> GetBlockReason(e) == Ok(None)
    ensures forall s :: Isset(data, "blocked_at") == Some(Str(s)) ==> GetBlockedAt(e) == Ok(Some(s))
    ensures Isset(data, "blocked_at").None? ==> GetBlockedAt(e) == Ok(None)
  {
  }

  /** Without a `data` array every getter answers null. */
  lemma NoDataAllNull(e: WebhookEvent)
    requires e.kind == CardBlocked
    requires Isset(e.payload, "data").None? || !Isset(e.payload, "data").value.Arr?
    ensures GetCardId(e) == Ok(None) && GetUserId(e) == Ok(None) && GetBlockReason(e) == Ok(None) && GetBlockedAt(e) == Ok(None)
  {
  }
}
