/** The card details response: fourteen optional text properties read from the payload,
    with card-number masking and an activity test. */
module CardInfoResponse {
  import opened Wrappers
  import opened KeyOrder
  import opened PhpValue
  import opened MuseWalletResponse
  import CardStatus

  datatype CardInfo = CardInfo(code: string, message: string, cardId: Option<string>, userId: Option<string>, cardNumber: Option<string>, status: Option<string>, cardLevel: Option<string>, cardType: Option<string>, currency: Option<string>, balance: Option<string>, availableBalance: Option<string>, embossedName: Option<string>, expiryMonth: Option<string>, expiryYear: Option<string>, phoneNumber: Option<string>, phoneAreaCode: Option<string>, rawData: Value)

  /** No optional property was read. */
  predicate NoFields(c: CardInfo) {
    c.cardId.None? && c.userId.None? && c.cardNumber.None? && c.status.None? && c.cardLevel.None? && c.cardType.None? && c.currency.None? && c.balance.None? && c.availableBalance.None? && c.embossedName.None? && c.expiryMonth.None? && c.expiryYear.None? && c.phoneNumber.None? && c.phoneAreaCode.None?
  }

  /** The payload keys of the optional properties, in declaration order. */
  const Keys: seq<string> := ["card_id", "user_id", "card_number", "status", "card_level", "card_type", "currency", "balance", "available_balance", "embossed_name", "expiry_month", "expiry_year", "phone_number", "phone_area_code"]

  function Values(c: CardInfo): (v: seq<Option<string>>)
    ensures |v| == |Keys|
  {
    [c.cardId, c.userId, c.cardNumber, c.status, c.cardLevel, c.cardType, c.currency, c.balance, c.availableBalance, c.embossedName, c.expiryMonth, c.expiryYear, c.phoneNumber, c.phoneAreaCode]
  }

  /** The response holding `v` as its properties. */
  function WithValues(code: string, message: string, v: seq<Option<string>>, rawData: Value): (c: CardInfo)
    requires |v| == |Keys|
    ensures Values(c) == v && c.code == code && c.message == message && c.rawData == rawData
  {
    var c := CardInfo(code, message, v[0], v[1], v[2], v[3], v[4], v[5], v[6], v[7], v[8], v[9], v[10], v[11], v[12], v[13], rawData);
    assert Values(c) == v;
    c
  }

  /** `CardInfoResponse::fromArray($response)`: the properties come from `$response['data'] ?? []`,
      each null when missing. */
  function FromArray(response: Array): (r: Result<CardInfo, string>)
    ensures r.Err? <==> CodeOf(response).Err? || MessageOf(response).Err? || ReadFields(DataOf(response), Keys).Err?
    ensures r.Ok? ==> r.value.code == CodeOf(response).value && r.value.message == MessageOf(response).value
    ensures r.Ok? ==> Values(r.value) == ReadFields(DataOf(response), Keys).value
    ensures r.Ok? ==> r.value.rawData == DataOf(response)
  {
    var code :- CodeOf(response);
    var message :- MessageOf(response);
    var data := DataOf(response);
    var v :- ReadFields(data, Keys);
    Ok(WithValues(code, message, v, data))
  }

  /** A body without a payload array gives a response with no properties set, and a body
      without a code one that is not successful. */
  lemma FromArrayDefaults(response: Array)
    requires FromArray(response).Ok?
    ensures !DataOf(response).Arr? ==> NoFields(FromArray(response).value)
    ensures Isset(response, "code").None? ==> !IsSuccessfulCode(FromArray(response).value.code)
  {
    if !DataOf(response).Arr? {
      ReadFieldsNoPayload(DataOf(response), Keys);
    }
  }

  /** `CardInfoResponse::toArray()`: code and message, then the properties under the keys
      `fromArray` reads; the raw payload is not written. */
  function ToArray(c: CardInfo): (a: Array)
    ensures DistinctKeys(a)
    ensures Get(a, "code") == Some(Str(c.code)) && Get(a, "message") == Some(Str(c.message))
    ensures forall i :: 0 <= i < |Keys| ==> Get(a, Keys[i]) == Some(Nullable(Values(c)[i]))
    ensures forall x :: x in a ==> x.0 == "code" || x.0 == "message" || x.0 in Keys
    ensures forall x :: x in a ==> x.0 != "data"
  {
    KeysFresh();
    PropertiesArray(c.code, c.message, Keys, Values(c))
  }

  /** A body whose payload is what `toArray` wrote. */
  function Envelope(c: CardInfo): Array {
    [("code", Str(c.code)), ("message", Str(c.message)), ("data", Arr(ToArray(c)))]
  }

  /** `toArray`'s own code and message read back as written, and parsing a body whose
      payload is `toArray`'s output gives back the same response, the raw payload aside. */
  lemma RoundTrip(c: CardInfo)
    ensures CodeOf(ToArray(c)) == Ok(c.code) && MessageOf(ToArray(c)) == Ok(c.message)
    ensures FromArray(Envelope(c)) == Ok(c.(rawData := Arr(ToArray(c))))
  {
    var e := Envelope(c);
    GetAt(e, 0);
    GetAt(e, 1);
    GetAt(e, 2);
    assert CodeOf(e) == Ok(c.code) && MessageOf(e) == Ok(c.message);
    assert DataOf(e) == Arr(ToArray(c));
    ReadRow(ToArray(c), Keys, Values(c));
    var r := FromArray(e);
    ValuesInjective(r.value, c.(rawData := Arr(ToArray(c))));
  }

  /** The property keys are distinct and differ from the envelope's. */
  lemma KeysFresh()
    ensures Distinct(Keys) && "code" !in Keys && "message" !in Keys && "data" !in Keys
  {
  }

  /** A response is determined by its code, message, properties and payload. */
  lemma ValuesInjective(a: CardInfo, b: CardInfo)
    requires a.code == b.code && a.message == b.message && a.rawData == b.rawData
    requires Values(a) == Values(b)
    ensures a == b
  {
    var va, vb := Values(a), Values(b);
    assert va[0] == vb[0];
    assert va[1] == vb[1];
    assert va[2] == vb[2];
    assert va[3] == vb[3];
    assert va[4] == vb[4];
    assert va[5] == vb[5];
    assert va[6] == vb[6];
    assert va[7] == vb[7];
    assert va[8] == vb[8];
    assert va[9] == vb[9];
    assert va[10] == vb[10];
    assert va[11] == vb[11];
    assert va[12] == vb[12];
    assert va[13] == vb[13];
  }

  /** Each property is the payload's text under its key, and null when the key is missing. */
  lemma PropertyFromPayload(response: Array, i: nat)
    requires FromArray(response).Ok? && i < |Keys|
    ensures forall s :: Index(DataOf(response), Keys[i]) == Some(Str(s)) ==>
                          Values(FromArray(response).value)[i] == Some(s)
    ensures Index(DataOf(response), Keys[i]).None? ==> Values(FromArray(response).value)[i].None?
  {
  }

  /** `getMaskedCardNumber()`: null for a missing, falsy or short number, otherwise four stars
      and the number's last four characters. */
  function MaskedCardNumber(c: CardInfo): (masked: Option<string>)
    ensures masked.None? <==> c.cardNumber.None? || |c.cardNumber.value| < 4
    ensures masked.Some? ==>
              |masked.value| == 8 && masked.value[..4] == "****" &&
              masked.value[4..] == c.cardNumber.value[|c.cardNumber.value| - 4..]
  {
    match c.cardNumber
    case None => None
    case Some(n) =>
      if IsEmpty(Str(n)) || |n| < 4 then None else Some("****" + n[|n| - 4..])
  }

  /** `isActive()`: `$this->status === 'ACTIVE'`, so a card is active exactly when its status
      is set and is the one `CardStatus::isUsable` accepts; such a card cannot be activated. */
  function IsActive(c: CardInfo): (active: bool)
    ensures active <==> c.status.Some? && CardStatus.IsUsable(c.status.value)
    ensures active ==> !CardStatus.CanBeActivated(c.status.value)
  {
    c.status == Some("ACTIVE")
  }
}
