/** The life-cycle states of an issued card. */
module CardStatus {
  const Inactive: string := "INACTIVE"
  const Active: string := "ACTIVE"
  const Locked: string := "LOCKED"
  const Closed: string := "CLOSED"
  const Suspended: string := "SUSPENDED"

  /** `CardStatus::all()`. */
  const All: map<string, string> := map[
    Inactive := "Inactive",
    Active := "Active",
    Locked := "Locked",
    Closed := "Closed",
    Suspended := "Suspended"
  ]

  /** `CardStatus::label($status)`. */
  function Label(status: string): (text: string)
    ensures status in All ==> text == All[status]
    ensures status !in All ==> text == "Unknown"
  {
    if status in All then All[status] else "Unknown"
  }

  /** `CardStatus::isUsable($status)`: `$status === 'ACTIVE'`, the status labelled "Active". */
  function IsUsable(status: string): (usable: bool)
    ensures usable <==> Label(status) == "Active"
  {
    status == Active
  }

  /** `CardStatus::canBeActivated($status)`: `$status === 'INACTIVE'`, the status labelled
      "Inactive". */
  function CanBeActivated(status: string): (activatable: bool)
    ensures activatable <==> Label(status) == "Inactive"
  {
    status == Inactive
  }

  /** A usable card is never activatable, and both states are listed. */
  lemma UsableNotActivatable(status: string)
    ensures !(IsUsable(status) && CanBeActivated(status))
    ensures IsUsable(status) || CanBeActivated(status) ==> status in All
  {
  }

  lemma LabelKnownIffListed(status: string)
    ensures status in All <==> Label(status) != "Unknown"
  {
  }
}
