/** The states of a card application, with labels and a three-way classification. */
module ApplyStatus {
  import opened PhpNumeric

  const CardInit: string := "CARD_INIT"
  const CardReviewing: string := "CARD_REVIEWING"
  const Applying: string := "APPLYING"
  const Approved: string := "APPROVED"
  const CardApproved: string := "CARD_APPROVED"
  const Rejected: string := "REJECTED"
  const CardReject: string := "CARD_REJECT"
  const Issued: string := "ISSUED"
  const CardShipped: string := "CARD_SHIPPED"

  /** `ApplyStatus::all()`. */
  const All: map<string, string> := map[
    CardInit := "Initiated",
    CardReviewing := "Reviewing",
    Applying := "Applying",
    Approved := "Approved",
    CardApproved := "Card Approved",
    Rejected := "Rejected",
    CardReject := "Card Rejected",
    Issued := "Issued",
    CardShipped := "Shipped"
  ]

  /** `ApplyStatus::label($status)`. */
  function Label(status: string): (text: string)
    ensures status in All ==> text == All[status]
    ensures status !in All ==> text == "Unknown"
  {
    if status in All then All[status] else "Unknown"
  }

  const SuccessfulStatuses: seq<string> := [Approved, CardApproved, Issued, CardShipped]
  const PendingStatuses: seq<string> := [CardInit, CardReviewing, Applying]
  const RejectedStatuses: seq<string> := [Rejected, CardReject]

  /** `ApplyStatus::isSuccessful($status)`: loose `in_array`. Every listed status is a word,
      so the loose comparison is exact and only the four listed statuses qualify. */
  function IsSuccessful(status: string): (successful: bool)
    ensures successful <==>
              status == Approved || status == CardApproved || status == Issued || status == CardShipped
  {
    InArrayLooseWords(status, SuccessfulStatuses);
    InArrayLoose(status, SuccessfulStatuses)
  }

  /** `ApplyStatus::isPending($status)`: loose `in_array`, exact on these words. */
  function IsPending(status: string): (pending: bool)
    ensures pending <==> status == CardInit || status == CardReviewing || status == Applying
  {
    InArrayLooseWords(status, PendingStatuses);
    InArrayLoose(status, PendingStatuses)
  }

  /** `ApplyStatus::isRejected($status)`: loose `in_array`, exact on these words. */
  function IsRejected(status: string): (rejected: bool)
    ensures rejected <==> status == Rejected || status == CardReject
  {
    InArrayLooseWords(status, RejectedStatuses);
    InArrayLoose(status, RejectedStatuses)
  }

  function Count(b: bool): nat {
    if b then 1 else 0
  }

  /** The three predicates partition the table: each known status satisfies exactly one,
      and an unknown status is labelled "Unknown" and satisfies none. */
  lemma Partition(status: string)
    ensures status in All ==>
              Count(IsSuccessful(status)) + Count(IsPending(status)) + Count(IsRejected(status)) == 1
    ensures status !in All ==>
              Label(status) == "Unknown" && !IsSuccessful(status) && !IsPending(status) && !IsRejected(status)
  {
  }

  /** No table status is labelled "Unknown". */
  lemma LabelKnownIffListed(status: string)
    ensures status in All <==> Label(status) != "Unknown"
  {
  }
}
