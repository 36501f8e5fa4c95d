/** The KYC states of a card holder, numbered "0" to "4". */
module KycStatus {
  import opened PhpNumeric

  const NotSet: string := "0"
  const WaitAudit: string := "1"
  const InAudit: string := "2"
  const Approved: string := "3"
  const Refused: string := "4"

  /** `KycStatus::all()`. */
  const All: map<string, string> := map[
    NotSet := "Not Set",
    WaitAudit := "Waiting for Audit",
    InAudit := "In Audit",
    Approved := "Approved",
    Refused := "Refused"
  ]

  /** `KycStatus::label($status)`. */
  function Label(status: string): (text: string)
    ensures status in All ==> text == All[status]
    ensures status !in All ==> text == "Unknown"
  {
    if status in All then All[status] else "Unknown"
  }

  /** `KycStatus::isApproved($status)`: `$status === '3'`, the status labelled "Approved". */
  function IsApproved(status: string): (approved: bool)
    ensures approved <==> Label(status) == "Approved"
  {
    status == Approved
  }

  const PendingStatuses: seq<string> := [WaitAudit, InAudit]

  /** `KycStatus::isPending($status)`: loose `in_array`, so the comparison is numeric; among
      plain decimals exactly "1" and "2" are pending. */
  function IsPending(status: string): (pending: bool)
    ensures Decimal(status) ==> (pending <==> status == WaitAudit || status == InAudit)
  {
    PendingDecimals();
    if Decimal(status) then
      InArrayLooseDecimal(status, PendingStatuses);
      InArrayLoose(status, PendingStatuses)
    else
      InArrayLoose(status, PendingStatuses)
  }

  /** `KycStatus::isRejected($status)`: `$status === '4'`, the status labelled "Refused". */
  function IsRejected(status: string): (rejected: bool)
    ensures rejected <==> Label(status) == "Refused"
  {
    status == Refused
  }

  lemma PendingDecimals()
    ensures forall i :: 0 <= i < |PendingStatuses| ==> Decimal(PendingStatuses[i])
  {
  }

  /** The comparison is numeric: a pending code with leading whitespace is still pending. */
  lemma PaddedPending()
    ensures IsPending(" " + WaitAudit)
    ensures " " + WaitAudit !in All
  {
    PendingDecimals();
    assert Decimal(PendingStatuses[0]) && IsPending(WaitAudit);
    assert InArrayLoose(" " + WaitAudit, PendingStatuses) <==> InArrayLoose(WaitAudit, PendingStatuses) by {
      InArrayLooseLeadingSpace(WaitAudit, PendingStatuses);
    }
  }

  /** No string is in two classes, and "not set" is in none. */
  lemma Disjoint(status: string)
    ensures !(IsApproved(status) && IsPending(status))
    ensures !(IsRejected(status) && IsPending(status))
    ensures !(IsApproved(status) && IsRejected(status))
    ensures !IsApproved(NotSet) && !IsPending(NotSet) && !IsRejected(NotSet)
  {
    PendingDecimals();
    if IsApproved(status) || IsRejected(status) {
      assert Decimal(status);
    }
    assert !InArrayLoose(NotSet, PendingStatuses) by {
      ZeroNotInDecimals(PendingStatuses);
    }
  }

  lemma LabelKnownIffListed(status: string)
    ensures status in All <==> Label(status) != "Unknown"
  {
  }
}
