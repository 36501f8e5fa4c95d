/** The event for a rejected card application. */
module ApplicationRejectedEvent {
  import opened Wrappers
  import opened PhpValue
  import opened MuseWalletWebhookEvent

  /** `getApplicationId()`: `data.apply_id`, else `data.application_id`, else null. */
  function GetApplicationId(e: WebhookEvent): Result<Option<string>, string>
    requires e.kind == ApplicationRejected
  {
    TextOr(e, "apply_id", "application_id")
  }

  /** `getRequestId()`: `data.request_id`, or null. */
  function GetRequestId(e: WebhookEvent): Result<Option<string>, string>
    requires e.kind == ApplicationRejected
  {
    Text(e, "request_id")
  }

  /** `getUserId()`: `data.user_id`, or null. */
  function GetUserId(e: WebhookEvent): Result<Option<string>, string>
    requires e.kind == ApplicationRejected
  {
    Text(e, "user_id")
  }

  /** `getRejectionReason()`: `data.reason`, else `data.rejection_reason`, else null. */
  function GetRejectionReason(e: WebhookEvent): Result<Option<string>, string>
    requires e.kind == ApplicationRejected
  {
    TextOr(e, "reason", "rejection_reason")
  }

  /** `getRejectedAt()`: `data.rejected_at`, or null. */
  function GetRejectedAt(e: WebhookEvent): Result<Option<string>, string>
    requires e.kind == ApplicationRejected
  {
    Text(e, "rejected_at")
  }

  /** Each getter returns the text stored under its key in the payload's `data` array.
      A getter with a fallback key reads it only when the first key is missing or null,
      and answers null when both are. */
  lemma GettersReadData(e: WebhookEvent, data: Array)
    requires e.kind == ApplicationRejected
    requires Isset(e.payload, "data") == Some(Arr(data))
    ensures forall s :: Isset(data, "apply_id") == Some(Str(s)) ==> GetApplicationId(e) == Ok(Some(s))
    ensures forall s :: Isset(data, "apply_id").None? && Isset(data, "application_id") == Some(Str(s)) ==>
                          GetApplicationId(e) == Ok(Some(s))
    ensures Isset(data, "apply_id").None? && Isset(data, "application_id").None? ==> GetApplicationId(e) == Ok(None)
    ensures forall s :: Isset(data, "request_id") == Some(Str(s)) ==> GetRequestId(e) == Ok(Some(s))
    ensures Isset(data, "request_id").None? ==> GetRequestId(e) == Ok(None)
    ensures forall s :: Isset(data, "user_id") == Some(Str(s)) ==> GetUserId(e) == Ok(Some(s))
    ensures Isset(data, "user_id").None? ==> GetUserId(e) == Ok(None)
    ensures forall s :: Isset(data, "reason") == Some(Str(s)) ==> GetRejectionReason(e) == Ok(Some(s))
    ensures forall s :: Isset(data, "reason").None? && Isset(data, "rejection_reason") == Some(Str(s)) ==>
                          GetRejectionReason(e) == Ok(Some(s))
    ensures Isset(data, "reason").None? && Isset(data, "rejection_reason").None? ==> GetRejectionReason(e) == Ok(None)
    ensures forall s :: Isset(data, "rejected_at") == Some(Str(s)) ==> GetRejectedAt(e) == Ok(Some(s))
    ensures Isset(data, "rejected_at").None? ==> GetRejectedAt(e) == Ok(None)
  {
  }

  /** Without a `data` array every getter answers null. */
  lemma NoDataAllNull(e: WebhookEvent)
    requires e.kind == ApplicationRejected
    requires Isset(e.payload, "data").None? || !Isset(e.payload, "data").value.Arr?
    ensures GetApplicationId(e) == Ok(None) && GetRequestId(e) == Ok(None) && GetUserId(e) == Ok(None) && GetRejectionReason(e) == Ok(None) && GetRejectedAt(e) == Ok(None)
  {
  }
}
