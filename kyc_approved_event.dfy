/** The event for an approved KYC verification. */
module KycApprovedEvent {
  import opened Wrappers
  import opened PhpValue
  import opened MuseWalletWebhookEvent

  /** `getUserId()`: `data.user_id`, or null. */
  function GetUserId(e: WebhookEvent): Result<Option<string>, string>
    requires e.kind == KycApproved
  {
    Text(e, "user_id")
  }

  /** `getUserXid()`: `data.user_xid`, or null. */
  function GetUserXid(e: WebhookEvent): Result<Option<string>, string>
    requires e.kind == KycApproved
  {
    Text(e, "user_xid")
  }

  /** `getKycLevel()`: `data.kyc_level`, or null. */
  function GetKycLevel(e: WebhookEvent): Result<Option<string>, string>
    requires e.kind == KycApproved
  {
    Text(e, "kyc_level")
  }

  /** `getApprovedAt()`: `data.approved_at`, or null. */
  function GetApprovedAt(e: WebhookEvent): Result<Option<string>, string>
    requires e.kind == KycApproved
  {
    Text(e, "approved_at")
  }

  /** Each getter returns the text stored under its key in the payload's `data` array. */
  lemma GettersReadData(e: WebhookEvent, data: Array)
    requires e.kind == KycApproved
    requires Isset(e.payload, "data") == Some(Arr(data))
    ensures forall s :: Isset(data, "user_id") == Some(Str(s)) ==> GetUserId(e) == Ok(Some(s))
    ensures Isset(data, "user_id").None? ==> GetUserId(e) == Ok(None)
    ensures forall s :: Isset(data, "user_xid") == Some(Str(s)) ==> GetUserXid(e) == Ok(Some(s))
    ensures Isset(data, "user_xid").None? ==> GetUserXid(e) == Ok(None)
    ensures forall s :: Isset(data, "kyc_level") == Some(Str(s)) ==> GetKycLevel(e) == Ok(Some(s))
    ensures Isset(data, "kyc_level").None? ==> GetKycLevel(e) == Ok(None)
    ensures forall s :: Isset(data, "approved_at") == Some(Str(s)) ==> GetApprovedAt(e) == Ok(Some(s))
    ensures Isset(data, "approved_at").None? ==> GetApprovedAt(e) == Ok(None)
  {
  }

  /** Without a `data` array every getter answers null. */
  lemma NoDataAllNull(e: WebhookEvent)
    requires e.kind == KycApproved
    requires Isset(e.payload, "data").None? || !Isset(e.payload, "data").value.Arr?
    ensures GetUserId(e) == Ok(None) && GetUserXid(e) == Ok(None) && GetKycLevel(e) == Ok(None) && GetApprovedAt(e) == Ok(None)
  {
  }
}
