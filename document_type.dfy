/** The identity documents a card holder may upload. */
module DocumentType {
  const Passport: string := "1"
  const IdCard: string := "2"

  /** `DocumentType::all()`. */
  const All: map<string, string> := map[
    Passport := "Passport",
    IdCard := "ID Card / Driver's License"
  ]

  /** `DocumentType::label($type)`. */
  function Label(docType: string): (text: string)
    ensures docType in All ==> text == All[docType]
    ensures docType !in All ==> text == "Unknown"
  {
    if docType in All then All[docType] else "Unknown"
  }

  /** `DocumentType::isValid($type)`: `isset` on the table. */
  function IsValid(docType: string): (valid: bool)
    ensures valid <==> Label(docType) != "Unknown"
  {
    docType in All
  }

  lemma ValidTypes(docType: string)
    ensures IsValid(docType) <==> docType == Passport || docType == IdCard
    ensures Passport == "1" && IdCard == "2"
  {
  }
}
