/** How a request to MusePay is signed. The four authentication fields are written over the
    caller's data, the endpoint's signature fields are extracted and sorted, and the pairs are
    joined as `key=value` with `&`, without URL-encoding. The text is then signed with the
    partner's RSA key, and five authentication parameters are handed back for merging into
    the request. */
module RequestSigning {
  import opened Wrappers
  import opened KeyOrder
  import opened PhpValue
  import opened External
  import opened SignatureParameters

  const SignType: string := "RSA"
  const InvalidPrivateKey: string := "Invalid private key provided"

  /** The keys of the authentication parameters, in the order they are returned. */
  const AuthKeys: seq<string> := ["partner_id", "sign_type", "timestamp", "nonce", "sign"]

  /** `(string)time()`: never empty. */
  function Timestamp(now: int): (t: string)
    ensures |t| >= 1
  {
    IntToString(now)
  }

  /** `$data` once `partner_id`, `sign_type`, `timestamp` and `nonce` have been written over
      it: the four fields hold the service's values whatever the caller sent, `nonce` repeats
      the timestamp, and every other key is the caller's. */
  function Stamped(data: Array, partnerId: string, timestamp: string): (r: Array)
    ensures Get(r, "partner_id") == Some(Str(partnerId))
    ensures Get(r, "sign_type") == Some(Str(SignType))
    ensures Get(r, "timestamp") == Some(Str(timestamp))
    ensures Get(r, "nonce") == Some(Str(timestamp))
    ensures forall k :: k !in CommonSignatureFields ==> Get(r, k) == Get(data, k)
  {
    Put(Put(Put(Put(data, "partner_id", Str(partnerId)), "sign_type", Str(SignType)),
            "timestamp", Str(timestamp)), "nonce", Str(timestamp))
  }

  /** `$key . '=' . $value`: no URL-encoding, and `false` prints as nothing. */
  function Part(entry: (string, Value)): string {
    entry.0 + "=" + ToPhpString(entry.1)
  }

  function Parts(params: Array): seq<string> {
    seq(|params|, i requires 0 <= i < |params| => Part(params[i]))
  }

  /** What `SignatureParameters::extract` returns for the stamped data. */
  function SignatureParams(endpoint: string, data: Array, partnerId: string, timestamp: string,
                           encode: Value -> Option<string>): Array {
    Extracted(endpoint, Stamped(data, partnerId, timestamp), encode)
  }

  /** The text that is signed. */
  function SignedMessage(endpoint: string, data: Array, partnerId: string, timestamp: string,
                         encode: Value -> Option<string>): string {
    Implode("&", Parts(SignatureParams(endpoint, data, partnerId, timestamp, encode)))
  }

  /** The five authentication parameters returned for merging. */
  function AuthParams(partnerId: string, timestamp: string, sign: string): (r: Array)
    ensures DistinctKeys(r)
    ensures forall x :: x in r ==> x.0 in AuthKeys
    ensures Get(r, "partner_id") == Some(Str(partnerId))
    ensures Get(r, "sign_type") == Some(Str(SignType))
    ensures Get(r, "timestamp") == Some(Str(timestamp))
    ensures Get(r, "nonce") == Get(r, "timestamp")
    ensures Get(r, "sign") == Some(Str(sign))
  {
    var r := [("partner_id", Str(partnerId)), ("sign_type", Str(SignType)), ("timestamp", Str(timestamp)),
              ("nonce", Str(timestamp)), ("sign", Str(sign))];
    GetAt(r, 0);
    GetAt(r, 1);
    GetAt(r, 2);
    GetAt(r, 3);
    GetAt(r, 4);
    r
  }

  /** The authentication parameters hold exactly the five keys. */
  lemma AuthParamsKeys(partnerId: string, timestamp: string, sign: string, k: string)
    ensures Get(AuthParams(partnerId, timestamp, sign), k).Some? <==> k in AuthKeys
  {
    var r := AuthParams(partnerId, timestamp, sign);
    if k in AuthKeys {
      assert k == "partner_id" || k == "sign_type" || k == "timestamp" || k == "nonce" || k == "sign";
    } else {
      GetSound(r, k);
    }
  }

  /** `generateSignatureRequestData($data, $endpoint)` at clock reading `now`: a private key
      that does not parse is the one way it fails. */
  function SignatureRequestData(endpoint: string, data: Array, partnerId: string, privateKey: string,
                                now: int, prims: Primitives): (r: Result<Array, string>)
    ensures r.Err? <==> !prims.privateKeyParses(privateKey)
    ensures r.Err? ==> r.error == InvalidPrivateKey
  {
    var timestamp := Timestamp(now);
    var message := SignedMessage(endpoint, data, partnerId, timestamp, prims.jsonEncodeUnescaped);
    if !prims.privateKeyParses(privateKey) then Err(InvalidPrivateKey)
    else Ok(AuthParams(partnerId, timestamp, prims.rsaSha1SignBase64(message, privateKey)))
  }

  /** The signed pairs are sorted by key. The service's four fields are signed with the
      service's values: `nonce` and `timestamp` always, both equal to the clock reading, and
      `partner_id` unless it is empty. Every other pair is the endpoint's declared field with
      the caller's contribution. */
  lemma SignatureParamsCharacterised(endpoint: string, data: Array, partnerId: string, now: int,
                                     encode: Value -> Option<string>)
    ensures StrictlySorted(SignatureParams(endpoint, data, partnerId, Timestamp(now), encode))
    ensures Get(SignatureParams(endpoint, data, partnerId, Timestamp(now), encode), "partner_id") ==
              if partnerId == "" then None else Some(Str(partnerId))
    ensures Get(SignatureParams(endpoint, data, partnerId, Timestamp(now), encode), "sign_type") ==
              Some(Str(SignType))
    ensures Get(SignatureParams(endpoint, data, partnerId, Timestamp(now), encode), "timestamp") ==
              Some(Str(Timestamp(now)))
    ensures Get(SignatureParams(endpoint, data, partnerId, Timestamp(now), encode), "nonce") ==
              Some(Str(Timestamp(now)))
    ensures forall k :: k !in CommonSignatureFields ==>
              Get(SignatureParams(endpoint, data, partnerId, Timestamp(now), encode), k) ==
                if ShouldIncludeField(endpoint, k) then ContributionOf(data, k, encode) else None
  {
    var timestamp := Timestamp(now);
    var stamped := Stamped(data, partnerId, timestamp);
    ExtractedSorted(endpoint, stamped, encode);
    CommonFieldsIncluded(endpoint);
    ExtractedAt(endpoint, stamped, encode, "partner_id");
    ExtractedAt(endpoint, stamped, encode, "sign_type");
    ExtractedAt(endpoint, stamped, encode, "timestamp");
    ExtractedAt(endpoint, stamped, encode, "nonce");
    assert Str(timestamp) != Str("");
    forall k | k !in CommonSignatureFields
      ensures Get(SignatureParams(endpoint, data, partnerId, timestamp, encode), k) ==
                if ShouldIncludeField(endpoint, k) then ContributionOf(data, k, encode) else None
    {
      ExtractedAt(endpoint, stamped, encode, k);
      assert Isset(stamped, k) == Isset(data, k);
    }
  }

  /** Stamping erases every difference in the four authentication fields. */
  lemma StampedAgree(a: Array, b: Array, partnerId: string, timestamp: string)
    requires forall k :: k !in CommonSignatureFields ==> Get(a, k) == Get(b, k)
    ensures forall k :: Get(Stamped(a, partnerId, timestamp), k) == Get(Stamped(b, partnerId, timestamp), k)
  {
    var sa := Stamped(a, partnerId, timestamp);
    var sb := Stamped(b, partnerId, timestamp);
    forall k
      ensures Get(sa, k) == Get(sb, k)
    {
      if k in CommonSignatureFields {
        assert k == "partner_id" || k == "sign_type" || k == "timestamp" || k == "nonce";
      }
    }
  }

  /** Whatever the caller puts in `partner_id`, `sign_type`, `timestamp` or `nonce` is
      overwritten before signing: data that differ only there sign the same text. */
  lemma CallerAuthFieldsIgnored(endpoint: string, a: Array, b: Array, partnerId: string, timestamp: string,
                                encode: Value -> Option<string>)
    requires forall k :: k !in CommonSignatureFields ==> Get(a, k) == Get(b, k)
    ensures SignedMessage(endpoint, a, partnerId, timestamp, encode) ==
            SignedMessage(endpoint, b, partnerId, timestamp, encode)
  {
    StampedAgree(a, b, partnerId, timestamp);
    ExtractedReadsDeclaredFields(endpoint, Stamped(a, partnerId, timestamp), Stamped(b, partnerId, timestamp), encode);
  }

  /** Stamping keeps a difference at one key that is not an authentication field, and no other. */
  lemma StampedAgreeOutside(data: Array, key: string, v: Value, partnerId: string, timestamp: string)
    ensures forall k :: k != key ==>
              Get(Stamped(Put(data, key, v), partnerId, timestamp), k) == Get(Stamped(data, partnerId, timestamp), k)
  {
    var sa := Stamped(Put(data, key, v), partnerId, timestamp);
    var sb := Stamped(data, partnerId, timestamp);
    forall k | k != key
      ensures Get(sa, k) == Get(sb, k)
    {
      if k in CommonSignatureFields {
        assert k == "partner_id" || k == "sign_type" || k == "timestamp" || k == "nonce";
      }
    }
  }

  /** A field the endpoint does not declare is sent but not signed: setting it leaves the
      signed text unchanged. */
  lemma UndeclaredFieldUnsigned(endpoint: string, data: Array, key: string, v: Value, partnerId: string,
                                timestamp: string, encode: Value -> Option<string>)
    requires !ShouldIncludeField(endpoint, key)
    ensures SignedMessage(endpoint, Put(data, key, v), partnerId, timestamp, encode) ==
            SignedMessage(endpoint, data, partnerId, timestamp, encode)
  {
    StampedAgreeOutside(data, key, v, partnerId, timestamp);
    ExtractedReadsDeclaredFields(endpoint, Stamped(Put(data, key, v), partnerId, timestamp),
                                 Stamped(data, partnerId, timestamp), encode);
  }

  lemma MergedOver(data: Array, auth: Array, k: string)
    requires DistinctKeys(auth) && Get(auth, k).Some?
    ensures Get(Merge(data, auth), k) == Get(auth, k)
  {
  }

  lemma MergedKey(data: Array, auth: Array, k: string)
    requires DistinctKeys(auth)
    requires Get(auth, k).Some? <==> k in AuthKeys
    ensures Get(Merge(data, auth), k) == if k in AuthKeys then Get(auth, k) else Get(data, k)
  {
  }

  /** `array_merge($data, $preparedData)`, key by key: the five authentication parameters
      replace the caller's entries of the same name, and every other entry is sent as the
      caller gave it. */
  lemma PayloadCharacterised(data: Array, partnerId: string, timestamp: string, sign: string, k: string)
    ensures Get(Merge(data, AuthParams(partnerId, timestamp, sign)), k) ==
              if k in AuthKeys then Get(AuthParams(partnerId, timestamp, sign), k) else Get(data, k)
  {
    AuthParamsKeys(partnerId, timestamp, sign, k);
    MergedKey(data, AuthParams(partnerId, timestamp, sign), k);
  }

  /** The `nonce` and `sign` sent are the service's, whatever the caller's data held. */
  lemma PayloadAuthValues(data: Array, partnerId: string, timestamp: string, sign: string)
    ensures Get(Merge(data, AuthParams(partnerId, timestamp, sign)), "nonce") == Some(Str(timestamp))
    ensures Get(Merge(data, AuthParams(partnerId, timestamp, sign)), "sign") == Some(Str(sign))
  {
    var auth := AuthParams(partnerId, timestamp, sign);
    MergedOver(data, auth, "nonce");
    MergedOver(data, auth, "sign");
  }

  /** With a key that parses, the request sent carries the caller's entry at any key outside
      the five authentication parameters, and the signature of the signed text. */
  lemma SignedPayloadKeepsEntry(endpoint: string, data: Array, partnerId: string, privateKey: string,
                                now: int, prims: Primitives, k: string)
    requires prims.privateKeyParses(privateKey) && k !in AuthKeys
    ensures SignatureRequestData(endpoint, data, partnerId, privateKey, now, prims).Ok?
    ensures Get(Merge(data, SignatureRequestData(endpoint, data, partnerId, privateKey, now, prims).value), k) ==
            Get(data, k)
    ensures Get(Merge(data, SignatureRequestData(endpoint, data, partnerId, privateKey, now, prims).value), "sign") ==
              Some(Str(prims.rsaSha1SignBase64(SignedMessage(endpoint, data, partnerId, Timestamp(now),
                                                             prims.jsonEncodeUnescaped), privateKey)))
  {
    var sign := prims.rsaSha1SignBase64(SignedMessage(endpoint, data, partnerId, Timestamp(now),
                                                      prims.jsonEncodeUnescaped), privateKey);
    PayloadCharacterised(data, partnerId, Timestamp(now), sign, k);
    PayloadAuthValues(data, partnerId, Timestamp(now), sign);
  }
}
