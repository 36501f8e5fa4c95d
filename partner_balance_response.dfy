/** The partner balance response: the currency and four balance texts, the last three under
    camelCase keys in both directions. */
module PartnerBalanceResponse {
  import opened Wrappers
  import opened KeyOrder
  import opened PhpValue
  import opened MuseWalletResponse

  datatype PartnerBalance = PartnerBalance(code: string, message: string, currency: Option<string>, balance: Option<string>, availableBalance: Option<string>, freezeBalance: Option<string>, pendingSettleBalance: Option<string>, rawData: Value)

  /** No optional property was read. */
  predicate NoFields(c: PartnerBalance) {
    c.currency.None? && c.balance.None? && c.availableBalance.None? && c.freezeBalance.None? && c.pendingSettleBalance.None?
  }

  /** The payload keys of the optional properties, in declaration order. */
  const Keys: seq<string> := ["currency", "balance", "availableBalance", "freezeBalance", "pendingSettleBalance"]

  function Values(c: PartnerBalance): (v: seq<Option<string>>)
    ensures |v| == |Keys|
  {
    [c.currency, c.balance, c.availableBalance, c.freezeBalance, c.pendingSettleBalance]
  }

  /** The response holding `v` as its properties. */
  function WithValues(code: string, message: string, v: seq<Option<string>>, rawData: Value): (c: PartnerBalance)
    requires |v| == |Keys|
    ensures Values(c) == v && c.code == code && c.message == message && c.rawData == rawData
  {
    var c := PartnerBalance(code, message, v[0], v[1], v[2], v[3], v[4], rawData);
    assert Values(c) == v;
    c
  }

  /** `PartnerBalanceResponse::fromArray($response)`: the properties come from `$response['data'] ?? []`,
      each null when missing. */
  function FromArray(response: Array): (r: Result<PartnerBalance, string>)
    ensures r.Err? <==> CodeOf(response).Err? || MessageOf(response).Err? || ReadFields(DataOf(response), Keys).Err?
    ensures r.Ok? ==> r.value.code == CodeOf(response).value && r.value.message == MessageOf(response).value
    ensures r.Ok? ==> Values(r.value) == ReadFields(DataOf(response), Keys).value
    ensures r.Ok? ==> r.value.rawData == DataOf(response)
  {
    var code :- CodeOf(response);
    var message :- MessageOf(response);
    var data := DataOf(response);
    var v :- ReadFields(data, Keys);
    Ok(WithValues(code, message, v, data))
  }

  /** A body without a payload array gives a response with no properties set, and a body
      without a code one that is not successful. */
  lemma FromArrayDefaults(response: Array)
    requires FromArray(response).Ok?
    ensures !DataOf(response).Arr? ==> NoFields(FromArray(response).value)
    ensures Isset(response, "code").None? ==> !IsSuccessfulCode(FromArray(response).value.code)
  {
    if !DataOf(response).Arr? {
      ReadFieldsNoPayload(DataOf(response), Keys);
    }
  }

  /** `PartnerBalanceResponse::toArray()`: code and message, then the properties under the keys
      `fromArray` reads; the raw payload is not written. */
  function ToArray(c: PartnerBalance): (a: Array)
    ensures DistinctKeys(a)
    ensures Get(a, "code") == Some(Str(c.code)) && Get(a, "message") == Some(Str(c.message))
    ensures forall i :: 0 <= i < |Keys| ==> Get(a, Keys[i]) == Some(Nullable(Values(c)[i]))
    ensures forall x :: x in a ==> x.0 == "code" || x.0 == "message" || x.0 in Keys
    ensures forall x :: x in a ==> x.0 != "data"
  {
    KeysFresh();
    PropertiesArray(c.code, c.message, Keys, Values(c))
  }

  /** A body whose payload is what `toArray` wrote. */
  function Envelope(c: PartnerBalance): Array {
    [("code", Str(c.code)), ("message", Str(c.message)), ("data", Arr(ToArray(c)))]
  }

  /** `toArray`'s own code and message read back as written, and parsing a body whose
      payload is `toArray`'s output gives back the same response, the raw payload aside. */
  lemma RoundTrip(c: PartnerBalance)
    ensures CodeOf(ToArray(c)) == Ok(c.code) && MessageOf(ToArray(c)) == Ok(c.message)
    ensures FromArray(Envelope(c)) == Ok(c.(rawData := Arr(ToArray(c))))
  {
    var e := Envelope(c);
    GetAt(e, 0);
    GetAt(e, 1);
    GetAt(e, 2);
    assert CodeOf(e) == Ok(c.code) && MessageOf(e) == Ok(c.message);
    assert DataOf(e) == Arr(ToArray(c));
    ReadRow(ToArray(c), Keys, Values(c));
    var r := FromArray(e);
    ValuesInjective(r.value, c.(rawData := Arr(ToArray(c))));
  }

  /** The property keys are distinct and differ from the envelope's. */
  lemma KeysFresh()
    ensures Distinct(Keys) && "code" !in Keys && "message" !in Keys && "data" !in Keys
  {
  }

  /** A response is determined by its code, message, properties and payload. */
  lemma ValuesInjective(a: PartnerBalance, b: PartnerBalance)
    requires a.code == b.code && a.message == b.message && a.rawData == b.rawData
    requires Values(a) == Values(b)
    ensures a == b
  {
    var va, vb := Values(a), Values(b);
    assert va[0] == vb[0];
    assert va[1] == vb[1];
    assert va[2] == vb[2];
    assert va[3] == vb[3];
    assert va[4] == vb[4];
  }

  /** Each property is the payload's text under its key, and null when the key is missing. */
  lemma PropertyFromPayload(response: Array, i: nat)
    requires FromArray(response).Ok? && i < |Keys|
    ensures forall s :: Index(DataOf(response), Keys[i]) == Some(Str(s)) ==>
                          Values(FromArray(response).value)[i] == Some(s)
    ensures Index(DataOf(response), Keys[i]).None? ==> Values(FromArray(response).value)[i].None?
  {
  }

  /** A body with code "200" whose payload carries a balance text parses to a successful
      response holding that balance. */
  lemma SuccessfulBalance(response: Array, balance: string)
    requires FromArray(response).Ok?
    requires Get(response, "code") == Some(Str("200"))
    requires Index(DataOf(response), "balance") == Some(Str(balance))
    ensures IsSuccessfulCode(FromArray(response).value.code)
    ensures FromArray(response).value.balance == Some(balance)
  {
    PropertyFromPayload(response, 1);
  }
}
