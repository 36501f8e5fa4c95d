/** Which request fields enter the RSA signature of each endpoint, and how they are
    canonicalised: declared fields only, empty scalars dropped, composites JSON-encoded
    with their top-level keys sorted, the whole result sorted by key. */
module SignatureParameters {
  import opened Wrappers
  import opened KeyOrder
  import opened PhpValue

  /** The authentication fields every signature covers, ahead of the endpoint's own. */
  const CommonSignatureFields: seq<string> := ["partner_id", "sign_type", "timestamp", "nonce"]

  /** The business fields each endpoint signs. */
  const EndpointSignatureFields: map<string, seq<string>> := map[
    "/v1/carduser/create" := ["user_xid", "email", "individual", "document", "address", "user_name"],
    "/v1/carduser/query" := ["user_id", "user_xid", "email", "phone_number"],
    "/v1/carduser/upload-kyc" := ["user_xid", "individual", "document", "address"],
    "/v1/carduser/kyc-link" := ["user_xid"],
    "/v1/card/apply" := ["user_id", "request_id", "card_product_id", "card_level", "phone_number",
                         "phone_area_code", "embossed_name"],
    "/v1/card/apply-result" := ["request_id", "user_id"],
    "/v1/card/query" := ["card_id", "user_id"],
    "/v1/card/activate" := ["user_id", "card_id"],
    "/v1/cardaccount/topup" := ["request_id", "card_id", "user_id", "amount", "currency"],
    "/v1/balance/partner" := ["currency"],
    "/v1/balance/partner-address" := ["currency", "description"],
    "/v1/card/replace" := ["user_id", "original_card_id", "replace_reason", "request_id"],
    "/v1/card/limitChange" := ["user_id", "card_id", "daily_purchase_limit"],
    "/v1/card/txn-verification-confirm" := ["user_id", "card_id", "token", "request_id"],
    "/v1/card/txn-verification-decline" := ["user_id", "card_id", "token", "request_id"]
  ]

  /** The endpoint's business fields, none for an endpoint missing from the table. */
  function BusinessFields(endpoint: string): seq<string> {
    if endpoint in EndpointSignatureFields then EndpointSignatureFields[endpoint] else []
  }

  /** The fields signed for `endpoint`: the four common fields in order, then the endpoint's. */
  function GetFieldsForEndpoint(endpoint: string): (fields: seq<string>)
    ensures |fields| >= 4 && fields[..4] == CommonSignatureFields
    ensures fields[4..] == BusinessFields(endpoint)
  {
    CommonSignatureFields + BusinessFields(endpoint)
  }

  /** `in_array($field, getFieldsForEndpoint($endpoint), true)`. */
  predicate ShouldIncludeField(endpoint: string, field: string) {
    field in GetFieldsForEndpoint(endpoint)
  }

  /** A field is signed exactly when it is a common field or one the endpoint declares. */
  lemma ShouldIncludeFieldCharacterised(endpoint: string, field: string)
    ensures ShouldIncludeField(endpoint, field) <==>
      field in CommonSignatureFields ||
      (endpoint in EndpointSignatureFields && field in EndpointSignatureFields[endpoint])
  {
    var fields := GetFieldsForEndpoint(endpoint);
    assert fields == fields[..4] + fields[4..];
  }

  /** An endpoint outside the table signs the four common fields and nothing else. */
  lemma UnknownEndpointSignsCommonFields(endpoint: string)
    requires endpoint !in EndpointSignatureFields
    ensures GetFieldsForEndpoint(endpoint) == CommonSignatureFields
  {
    assert CommonSignatureFields + [] == CommonSignatureFields;
  }

  /** `$json && $json !== '[]' && $json !== '{}' && $json !== 'null'`: the encoding is kept. */
  predicate EncodingKept(json: Option<string>) {
    json.Some? && json.value != "" && json.value != "0" &&
    json.value != "[]" && json.value != "{}" && json.value != "null"
  }

  /** What a present, non-null value contributes to the signature data: a composite becomes
      the JSON text of its top-level-sorted entries unless that text is empty, and a scalar
      passes through unless it is the empty string. */
  function Contribution(v: Value, encode: Value -> Option<string>): (r: Option<Value>)
    ensures !v.Arr? ==> (r.None? <==> v == Str("")) && (r.Some? ==> r.value == v)
    ensures v.Arr? ==> (r.Some? <==> EncodingKept(encode(Arr(KSort(v.entries)))))
    ensures v.Arr? && r.Some? ==> r.value == Str(encode(Arr(KSort(v.entries))).value)
  {
    if v.Arr? then
      var json := encode(Arr(KSort(v.entries)));
      if EncodingKept(json) then Some(Str(json.value)) else None
    else if v == Str("") then None
    else Some(v)
  }

  /** The contribution of `data[field]`, nothing when `isset` fails. */
  function ContributionOf(data: Array, field: string, encode: Value -> Option<string>): Option<Value> {
    match Isset(data, field)
    case None => None
    case Some(v) => Contribution(v, encode)
  }

  /** `$signatureData` after the `foreach` has visited `fields`, before the final `ksort`. */
  function Collected(fields: seq<string>, data: Array, encode: Value -> Option<string>): Array {
    if |fields| == 0 then []
    else
      var before := Collected(fields[..|fields| - 1], data, encode);
      var field := fields[|fields| - 1];
      match ContributionOf(data, field, encode)
      case None => before
      case Some(c) => Put(before, field, c)
  }

  lemma {:induction false} CollectedLookup(fields: seq<string>, data: Array, encode: Value -> Option<string>)
    ensures DistinctKeys(Collected(fields, data, encode))
    ensures forall k :: Get(Collected(fields, data, encode), k) ==
                      (if k in fields then ContributionOf(data, k, encode) else None)
  {
    if |fields| > 0 {
      var prefix := fields[..|fields| - 1];
      CollectedLookup(prefix, data, encode);
      var field := fields[|fields| - 1];
      assert fields == prefix + [field];
      var c := ContributionOf(data, field, encode);
      if c.Some? {
        PutDistinct(Collected(prefix, data, encode), field, c.value);
      }
    }
  }

  /** `SignatureParameters::extract($endpoint, $data)`. */
  function Extracted(endpoint: string, data: Array, encode: Value -> Option<string>): Array {
    KSort(Collected(GetFieldsForEndpoint(endpoint), data, encode))
  }

  /** The output is sorted by key, and holds exactly the declared fields whose value
      contributes, each with its contribution. */
  lemma ExtractedCharacterised(endpoint: string, data: Array, encode: Value -> Option<string>)
    ensures StrictlySorted(Extracted(endpoint, data, encode))
    ensures forall k :: Get(Extracted(endpoint, data, encode), k) ==
                      (if ShouldIncludeField(endpoint, k) then ContributionOf(data, k, encode) else None)
  {
    var fields := GetFieldsForEndpoint(endpoint);
    var collected := Collected(fields, data, encode);
    CollectedLookup(fields, data, encode);
    KSortPermutes(collected);
    KSortSorted(collected);
    var sorted := KSort(collected);
    SortedDistinct(sorted);
    forall k
      ensures Get(sorted, k) == Get(collected, k)
    {
      GetPermuted(collected, sorted, k);
    }
  }

  lemma ExtractedSorted(endpoint: string, data: Array, encode: Value -> Option<string>)
    ensures StrictlySorted(Extracted(endpoint, data, encode))
  {
    CollectedLookup(GetFieldsForEndpoint(endpoint), data, encode);
    KSortSorted(Collected(GetFieldsForEndpoint(endpoint), data, encode));
  }

  lemma ExtractedAt(endpoint: string, data: Array, encode: Value -> Option<string>, k: string)
    ensures Get(Extracted(endpoint, data, encode), k) ==
              if ShouldIncludeField(endpoint, k) then ContributionOf(data, k, encode) else None
  {
    ExtractedCharacterised(endpoint, data, encode);
  }

  /** The four common fields are signed for every endpoint. */
  lemma CommonFieldsIncluded(endpoint: string)
    ensures ShouldIncludeField(endpoint, "partner_id") && ShouldIncludeField(endpoint, "sign_type")
    ensures ShouldIncludeField(endpoint, "timestamp") && ShouldIncludeField(endpoint, "nonce")
  {
    var fields := GetFieldsForEndpoint(endpoint);
    assert fields[..4][0] == "partner_id" && fields[..4][1] == "sign_type";
    assert fields[..4][2] == "timestamp" && fields[..4][3] == "nonce";
  }

  /** No entry of the output has a key that is undeclared for the endpoint or absent from the data. */
  lemma ExtractedKeysDeclaredAndPresent(endpoint: string, data: Array, encode: Value -> Option<string>)
    ensures forall x :: x in Extracted(endpoint, data, encode) ==>
                ShouldIncludeField(endpoint, x.0) && Isset(data, x.0).Some?
  {
    ExtractedCharacterised(endpoint, data, encode);
    var r := Extracted(endpoint, data, encode);
    forall x | x in r
      ensures ShouldIncludeField(endpoint, x.0) && Isset(data, x.0).Some?
    {
      var i :| 0 <= i < |r| && r[i] == x;
      SortedDistinct(r);
      GetDistinct(r, x.0, x.1);
    }
  }

  lemma {:induction false} CollectedReadsFields(fields: seq<string>, a: Array, b: Array, encode: Value -> Option<string>)
    requires forall k :: k in fields ==> Get(a, k) == Get(b, k)
    ensures Collected(fields, a, encode) == Collected(fields, b, encode)
  {
    if |fields| > 0 {
      var prefix := fields[..|fields| - 1];
      assert forall k :: k in prefix ==> k in fields;
      CollectedReadsFields(prefix, a, b, encode);
    }
  }

  /** The data is read only at the endpoint's declared fields: two arrays that agree there
      give the same output, whatever else they hold. */
  lemma ExtractedReadsDeclaredFields(endpoint: string, a: Array, b: Array, encode: Value -> Option<string>)
    requires forall k :: ShouldIncludeField(endpoint, k) ==> Get(a, k) == Get(b, k)
    ensures Extracted(endpoint, a, encode) == Extracted(endpoint, b, encode)
  {
    CollectedReadsFields(GetFieldsForEndpoint(endpoint), a, b, encode);
  }

  /** `0`, `'0'` and `false` are kept: only null, absence and `''` drop a scalar. */
  lemma FalsyScalarsKept(endpoint: string, data: Array, encode: Value -> Option<string>, field: string, v: Value)
    requires ShouldIncludeField(endpoint, field)
    requires Get(data, field) == Some(v)
    requires v == Int(0) || v == Str("0") || v == Bool(false)
    ensures Get(Extracted(endpoint, data, encode), field) == Some(v)
  {
    ExtractedCharacterised(endpoint, data, encode);
  }

  /** A composite that encodes to `[]`, such as the empty array, is dropped. */
  lemma EmptyCompositeDropped(endpoint: string, data: Array, encode: Value -> Option<string>, field: string)
    requires Get(data, field) == Some(Arr([]))
    requires encode(Arr([])) == Some("[]")
    ensures Get(Extracted(endpoint, data, encode), field) == None
  {
    ExtractedCharacterised(endpoint, data, encode);
  }

  /** Only the top-level key order of a composite is normalised: two composites holding the
      same entries in different orders contribute the same text. */
  lemma CompositeOrderIrrelevant(a: Array, b: Array, encode: Value -> Option<string>)
    requires DistinctKeys(a) && DistinctKeys(b) && multiset(a) == multiset(b)
    ensures Contribution(Arr(a), encode) == Contribution(Arr(b), encode)
  {
    KSortCanonical(a, b);
  }

  /** `extract` proper: the `foreach` over the declared fields fills `signatureData`,
      then it is sorted by key. */
  method Extract(endpoint: string, data: Array, encode: Value -> Option<string>) returns (signatureData: Array)
    ensures signatureData == Extracted(endpoint, data, encode)
    ensures StrictlySorted(signatureData)
    ensures forall k :: Get(signatureData, k) ==
                      (if ShouldIncludeField(endpoint, k) then ContributionOf(data, k, encode) else None)
  {
    var fields := GetFieldsForEndpoint(endpoint);
    signatureData := [];
    var i := 0;
    while i < |fields|
      invariant 0 <= i <= |fields|
      invariant signatureData == Collected(fields[..i], data, encode)
    {
      var field := fields[i];
      assert fields[..i + 1][..i] == fields[..i];
      var present := Isset(data, field);
      if present.Some? {
        var val := present.value;
        if val.Arr? {
          var json := encode(Arr(KSort(val.entries)));
          if EncodingKept(json) {
            signatureData := Put(signatureData, field, Str(json.value));
          }
        } else if val != Str("") {
          signatureData := Put(signatureData, field, val);
        }
      }
      i := i + 1;
    }
    assert fields[..|fields|] == fields;
    signatureData := KSort(signatureData);
    ExtractedCharacterised(endpoint, data, encode);
  }
}
