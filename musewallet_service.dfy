/** The service object the SDK exposes: configuration read once at construction, signed and
    retried requests to MusePay, the card-product list from configuration, and webhook
    verification and dispatch. The HTTP client, the clock, `sleep` and the event bus are
    replaced by parameters and returned logs. */
module MuseWallet {
  import opened Wrappers
  import opened KeyOrder
  import opened PhpValue
  import opened External
  import opened SignatureParameters
  import opened RequestSigning
  import opened RequestRetry
  import opened MuseWalletWebhookEvent
  import opened WebhookDispatch
  import CardApplicationResponse

  /** The configuration entries the constructor reads; `None` is an entry that is not set. */
  datatype Config = Config(
    baseUrl: Option<string>,
    partnerId: Option<string>,
    privateKey: Option<string>,
    timeout: Option<int>,
    retryAttempts: Option<int>,
    testingEnabled: Option<bool>,
    mockResponses: Option<bool>,
    eventsEnabled: Option<bool>
  )

  const DefaultBaseUrl: string := "https://api.test.musepay.io"
  const ApplyResultEndpoint: string := "/v1/card/apply-result"
  const InvalidWebhookSignature: string := "Invalid webhook signature"

  /** What `processWebhook` returns, and the event it dispatched on the way, if any. */
  datatype Processed = Processed(body: Array, dispatched: Option<WebhookEvent>)

  /** One entry of `getCardProducts`. */
  function Product(key: string, productId: Value): Array {
    [("id", productId), ("name", Str(UcFirst(key) + " Card")), ("type", Str(key)), ("configured", Bool(true))]
  }

  /** A listed product holds four distinct fields: the configured id, a display name made of the
      configuration key with its first letter upper-cased, the key itself as its type, and
      `configured` set to true. */
  lemma ProductFields(key: string, productId: Value)
    ensures DistinctKeys(Product(key, productId))
    ensures Get(Product(key, productId), "id") == Some(productId)
    ensures Get(Product(key, productId), "name") == Some(Str(UcFirst(key) + " Card"))
    ensures Get(Product(key, productId), "type") == Some(Str(key))
    ensures Get(Product(key, productId), "configured") == Some(Bool(true))
  {
    var p := Product(key, productId);
    GetAt(p, 0);
    GetAt(p, 1);
    GetAt(p, 2);
    GetAt(p, 3);
  }

  /** The configured products with an id that is not empty, in configuration order. */
  function CardProducts(products: Array): (r: seq<Array>)
    ensures |r| <= |products|
  {
    if |products| == 0 then []
    else
      var e := products[|products| - 1];
      CardProducts(products[..|products| - 1]) + if IsEmpty(e.1) then [] else [Product(e.0, e.1)]
  }

  /** Nothing is listed that was not configured with an id that is not empty. */
  lemma {:induction false} ListedProductConfigured(products: Array)
    ensures forall p :: p in CardProducts(products) ==>
              exists e :: e in products && !IsEmpty(e.1) && p == Product(e.0, e.1)
  {
    if |products| > 0 {
      var before := products[..|products| - 1];
      var e := products[|products| - 1];
      ListedProductConfigured(before);
      assert forall x :: x in before ==> x in products;
      assert e in products;
    }
  }

  /** Listing a configuration made of two parts lists the first part's products, then the
      second's: the order of the configuration is kept. */
  lemma {:induction false} CardProductsAppend(a: Array, b: Array)
    ensures CardProducts(a + b) == CardProducts(a) + CardProducts(b)
    decreases |b|
  {
    if |b| > 0 {
      var before := b[..|b| - 1];
      var e := b[|b| - 1];
      var last := if IsEmpty(e.1) then [] else [Product(e.0, e.1)];
      assert (a + b)[..|a + b| - 1] == a + before;
      assert (a + b)[|a + b| - 1] == e;
      assert CardProducts(a + b) == CardProducts(a + before) + last;
      assert CardProducts(b) == CardProducts(before) + last;
      CardProductsAppend(a, before);
    } else {
      assert a + b == a;
    }
  }

  /** Every product with an id that is not empty is listed. */
  lemma ConfiguredProductListed(products: Array, i: nat)
    requires i < |products| && !IsEmpty(products[i].1)
    ensures Product(products[i].0, products[i].1) in CardProducts(products)
  {
    var head, e, tail := products[..i], products[i], products[i + 1..];
    SplitAround(products, i);
    ListedAround(head, e, tail);
    InMiddle(CardProducts(head), Product(e.0, e.1), CardProducts(tail));
  }

  /** An entry with an id is listed between the products before it and those after it. */
  lemma ListedAround(head: Array, e: (string, Value), tail: Array)
    requires !IsEmpty(e.1)
    ensures CardProducts(head + ([e] + tail)) == CardProducts(head) + ([Product(e.0, e.1)] + CardProducts(tail))
  {
    var p := Product(e.0, e.1);
    assert CardProducts([e]) == [p] by {
      assert [e][..0] == [];
      assert CardProducts([e]) == CardProducts([]) + [p];
    }
    CardProductsAppend([e], tail);
    CardProductsAppend(head, [e] + tail);
  }

  lemma SplitAround<T>(s: seq<T>, i: nat)
    requires i < |s|
    ensures s == s[..i] + ([s[i]] + s[i + 1..])
  {
  }

  lemma InMiddle<T>(a: seq<T>, x: T, b: seq<T>)
    ensures x in a + ([x] + b)
  {
    assert (a + ([x] + b))[|a|] == x;
  }

  /** A last entry with an id adds its product at the end of the list. */
  lemma ListedAtEnd(products: Array)
    requires |products| > 0 && !IsEmpty(products[|products| - 1].1)
    ensures CardProducts(products) ==
              CardProducts(products[..|products| - 1]) +
              [Product(products[|products| - 1].0, products[|products| - 1].1)]
  {
  }

  /** Adding a product at the end keeps the products before it where they were. */
  lemma ListedPrefixKept(products: Array, listed: seq<Array>, i: nat)
    requires |products| > 0
    requires |listed| == |products| - 1
    requires forall j :: 0 <= j < |listed| ==> listed[j] == Product(products[..|products| - 1][j].0, products[..|products| - 1][j].1)
    requires i < |products|
    ensures (listed + [Product(products[|products| - 1].0, products[|products| - 1].1)])[i] ==
              Product(products[i].0, products[i].1)
  {
    if i < |listed| {
      assert products[..|products| - 1][i] == products[i];
    }
  }

  /** With every id set, the list has one product per entry, in the same order. */
  lemma {:induction false} AllConfiguredListed(products: Array)
    requires forall i :: 0 <= i < |products| ==> !IsEmpty(products[i].1)
    ensures |CardProducts(products)| == |products|
    ensures forall i :: 0 <= i < |products| ==> CardProducts(products)[i] == Product(products[i].0, products[i].1)
  {
    if |products| > 0 {
      var before := products[..|products| - 1];
      AllConfiguredListed(before);
      ListedAtEnd(products);
      forall i | 0 <= i < |products|
        ensures CardProducts(products)[i] == Product(products[i].0, products[i].1)
      {
        ListedPrefixKept(products, CardProducts(before), i);
      }
    }
  }

  /** The request `queryApplyResult` sends: `apply_id` is added only when it is truthy, that is
      neither null, `''` nor `'0'`. */
  function ApplyResultData(requestId: string, userId: string, applyId: Option<string>): (data: Array)
    ensures Get(data, "request_id") == Some(Str(requestId))
    ensures Get(data, "user_id") == Some(Str(userId))
    ensures Get(data, "apply_id").Some? <==> applyId.Some? && !IsEmpty(Str(applyId.value))
    ensures Get(data, "apply_id").Some? ==> Get(data, "apply_id") == Some(Str(applyId.value))
  {
    var data := [("request_id", Str(requestId)), ("user_id", Str(userId))];
    GetAt(data, 0);
    GetAt(data, 1);
    GetAbsent(data, "apply_id");
    if applyId.Some? && !IsEmpty(Str(applyId.value)) then Put(data, "apply_id", Str(applyId.value)) else data
  }

  /** `apply_id` is not among the fields `/v1/card/apply-result` signs, so it never changes the
      signed text. */
  lemma ApplyIdNotSigned(requestId: string, userId: string, applyId: Option<string>, partnerId: string,
                         timestamp: string, encode: Value -> Option<string>)
    ensures SignedMessage(ApplyResultEndpoint, ApplyResultData(requestId, userId, applyId), partnerId, timestamp, encode) ==
            SignedMessage(ApplyResultEndpoint, ApplyResultData(requestId, userId, None), partnerId, timestamp, encode)
  {
    if applyId.Some? && !IsEmpty(Str(applyId.value)) {
      ShouldIncludeFieldCharacterised(ApplyResultEndpoint, "apply_id");
      assert EndpointSignatureFields[ApplyResultEndpoint] == ["request_id", "user_id"];
      UndeclaredFieldUnsigned(ApplyResultEndpoint, ApplyResultData(requestId, userId, None), "apply_id",
                              Str(applyId.value), partnerId, timestamp, encode);
    }
  }

  /** Signing a query for any endpoint leaves its `request_id`, `user_id` and `apply_id`
      entries as the caller wrote them, next to the authentication parameters. */
  lemma ApplyResultPayload(endpoint: string, data: Array, requestId: string, userId: string,
                           partnerId: string, privateKey: string, now: int, prims: Primitives)
    requires prims.privateKeyParses(privateKey)
    requires Get(data, "request_id") == Some(Str(requestId)) && Get(data, "user_id") == Some(Str(userId))
    ensures SignatureRequestData(endpoint, data, partnerId, privateKey, now, prims).Ok?
    ensures Get(Merge(data, SignatureRequestData(endpoint, data, partnerId, privateKey, now, prims).value),
                "request_id") == Some(Str(requestId))
    ensures Get(Merge(data, SignatureRequestData(endpoint, data, partnerId, privateKey, now, prims).value),
                "user_id") == Some(Str(userId))
    ensures Get(Merge(data, SignatureRequestData(endpoint, data, partnerId, privateKey, now, prims).value),
                "apply_id") == Get(data, "apply_id")
  {
    QueryFieldsNotAuthKeys();
    SignedPayloadKeepsEntry(endpoint, data, partnerId, privateKey, now, prims, "request_id");
    SignedPayloadKeepsEntry(endpoint, data, partnerId, privateKey, now, prims, "user_id");
    SignedPayloadKeepsEntry(endpoint, data, partnerId, privateKey, now, prims, "apply_id");
  }

  lemma QueryFieldsNotAuthKeys()
    ensures "request_id" !in AuthKeys && "user_id" !in AuthKeys && "apply_id" !in AuthKeys
  {
  }

  lemma PostLowered()
    ensures StrToLower("POST") == "post"
  {
    assert StrToLower("T") == "t";
    assert StrToLower("ST") == "st";
    assert StrToLower("OST") == "ost";
  }

  class MuseWalletService {
    const baseUrl: string
    const partnerId: string
    const privateKey: string
    const timeout: int
    const retryAttempts: int
    const testingMode: bool
    const mockResponses: bool
    const eventsEnabled: bool

    /** Each setting is the configured value or its default. */
    constructor(config: Config)
      ensures baseUrl == config.baseUrl.UnwrapOr(DefaultBaseUrl)
      ensures partnerId == config.partnerId.UnwrapOr("")
      ensures privateKey == config.privateKey.UnwrapOr("")
      ensures timeout == config.timeout.UnwrapOr(30)
      ensures retryAttempts == config.retryAttempts.UnwrapOr(3)
      ensures testingMode == config.testingEnabled.UnwrapOr(false)
      ensures mockResponses == config.mockResponses.UnwrapOr(false)
      ensures eventsEnabled == config.eventsEnabled.UnwrapOr(true)
    {
      baseUrl := config.baseUrl.UnwrapOr(DefaultBaseUrl);
      partnerId := config.partnerId.UnwrapOr("");
      privateKey := config.privateKey.UnwrapOr("");
      timeout := config.timeout.UnwrapOr(30);
      retryAttempts := config.retryAttempts.UnwrapOr(3);
      testingMode := config.testingEnabled.UnwrapOr(false);
      mockResponses := config.mockResponses.UnwrapOr(false);
      eventsEnabled := config.eventsEnabled.UnwrapOr(true);
    }

    /** `getCardProducts()` over the configured `card_products`. */
    method GetCardProducts(products: Array) returns (formattedProducts: seq<Array>)
      ensures formattedProducts == CardProducts(products)
    {
      formattedProducts := [];
      for i := 0 to |products|
        invariant formattedProducts == CardProducts(products[..i])
      {
        assert products[..i + 1][..i] == products[..i];
        var (key, productId) := products[i];
        if !IsEmpty(productId) {
          formattedProducts := formattedProducts + [Product(key, productId)];
        }
      }
      assert products[..|products|] == products;
    }

    /** `generateSignatureRequestData($data, $endpoint)` with `time()` returning `now`. */
    method GenerateSignatureRequestData(data: Array, endpoint: string, prims: Primitives, now: int)
      returns (r: Result<Array, string>)
      ensures r == SignatureRequestData(endpoint, data, partnerId, privateKey, now, prims)
    {
      var stamped := data;
      stamped := Put(stamped, "partner_id", Str(partnerId));
      stamped := Put(stamped, "sign_type", Str(SignType));
      stamped := Put(stamped, "timestamp", Str(Timestamp(now)));
      stamped := Put(stamped, "nonce", Str(Timestamp(now)));
      assert stamped == Stamped(data, partnerId, Timestamp(now));
      var signatureParams := Extract(endpoint, stamped, prims.jsonEncodeUnescaped);
      var message := JoinPairs(signatureParams);
      assert message == SignedMessage(endpoint, data, partnerId, Timestamp(now), prims.jsonEncodeUnescaped);
      if !prims.privateKeyParses(privateKey) {
        return Err(InvalidPrivateKey);
      }
      var signBase64 := prims.rsaSha1SignBase64(message, privateKey);
      r := Ok(AuthParams(partnerId, Timestamp(now), signBase64));
    }

    /** The `foreach` of `generateSignatureRequestData` that writes each pair as `key=value`,
        then the `implode('&', …)` of the pairs. */
    method JoinPairs(signatureParams: Array) returns (message: string)
      ensures message == Implode("&", Parts(signatureParams))
    {
      var parts: seq<string> := [];
      for i := 0 to |signatureParams|
        invariant parts == Parts(signatureParams[..i])
      {
        var (key, value) := signatureParams[i];
        parts := parts + [key + "=" + ToPhpString(value)];
      }
      assert signatureParams[..|signatureParams|] == signatureParams;
      message := Implode("&", parts);
    }

    /** What `makeRequest` returns or throws. */
    function RequestResult(endpoint: string, data: Array, prims: Primitives, now: int,
                           outcomes: nat -> Outcome): (r: Result<Array, string>)
      ensures !prims.privateKeyParses(privateKey) ==> r == Err(InvalidPrivateKey)
      ensures prims.privateKeyParses(privateKey) ==> r == Retried(retryAttempts, outcomes).result
    {
      var prepared := SignatureRequestData(endpoint, data, partnerId, privateKey, now, prims);
      if prepared.Err? then Err(prepared.error) else Retried(retryAttempts, outcomes).result
    }

    /** `makeRequest($verb, $endpoint, $data)`: the `k`-th HTTP call yields `outcomes(k)`.
        Signing runs once, before any call, so a key that does not parse fails with no call
        at all. Otherwise every call sends the same request, and the result, the number of
        calls and the sleeps are those of the retry loop. */
    method MakeRequest(verb: string, endpoint: string, data: Array, prims: Primitives, now: int,
                       outcomes: nat -> Outcome)
      returns (result: Result<Array, string>, sent: seq<Request>, ghost sleeps: seq<nat>)
      ensures result == RequestResult(endpoint, data, prims, now, outcomes)
      ensures !prims.privateKeyParses(privateKey) ==>
                result == Err(InvalidPrivateKey) && sent == [] && sleeps == []
      ensures prims.privateKeyParses(privateKey) ==>
                |sent| == Retried(retryAttempts, outcomes).calls &&
                sleeps == Retried(retryAttempts, outcomes).sleeps
      ensures forall i :: 0 <= i < |sent| ==>
                sent[i] == Request(StrToLower(verb), baseUrl + endpoint,
                                   Merge(data, SignatureRequestData(endpoint, data, partnerId, privateKey, now, prims).value),
                                   timeout)
    {
      var url := baseUrl + endpoint;
      var prepared := GenerateSignatureRequestData(data, endpoint, prims, now);
      if prepared.Err? {
        return Err(prepared.error), [], [];
      }
      var request := Request(StrToLower(verb), url, Merge(data, prepared.value), timeout);
      result, sent, sleeps := SendWithRetries(request, outcomes);
    }

    /** The `for` loop of `makeRequest`: the same request is sent on every attempt, a caught
        failure is remembered and followed by a `2^attempt` second sleep when another attempt
        remains, and the loop ends at the first response that is not caught. */
    method SendWithRetries(request: Request, outcomes: nat -> Outcome)
      returns (result: Result<Array, string>, sent: seq<Request>, ghost sleeps: seq<nat>)
      ensures result == Retried(retryAttempts, outcomes).result
      ensures |sent| == Retried(retryAttempts, outcomes).calls
      ensures sleeps == Retried(retryAttempts, outcomes).sleeps
      ensures forall i :: 0 <= i < |sent| ==> sent[i] == request
    {
      var attempt: nat := 0;
      var last: Option<string> := None;
      sent := [];
      sleeps := [];
      while attempt < retryAttempts
        invariant |sent| == attempt && forall i :: 0 <= i < |sent| ==> sent[i] == request
        invariant Retried(retryAttempts, outcomes) == Continue(retryAttempts, outcomes, attempt, last, sleeps)
        decreases retryAttempts - attempt
      {
        var outcome := outcomes(attempt);
        sent := sent + [request];
        var caught: string;
        match outcome {
          case Thrown(message) =>
            caught := message;
          case Responded(status, body) =>
            if Successful(status) {
              if body.Arr? {
                assert Classify(outcome) == Returned(body.entries);
                return Ok(body.entries), sent, sleeps;
              }
              assert Classify(outcome) == Escaped(TypeError);
              return Err(TypeError), sent, sleeps;
            }
            caught := ErrorMessage(status, body);
        }
        assert Classify(outcome) == Caught(caught);
        CaughtStep(retryAttempts, outcomes, attempt, last, sleeps, caught);
        last := Some(caught);
        attempt := attempt + 1;
        if attempt < retryAttempts {
          sleeps := sleeps + [Pow2(attempt)];
        }
      }
      result := Err(Exhausted(retryAttempts, last));
    }

    /** `queryApplyResult($requestId, $userId, $applyId)`: a `POST` to the apply-result endpoint
        whose response body is parsed as a card application, or the failure of the request. The
        caller's `apply_id` is sent unsigned, and only when it is truthy. */
    method QueryApplyResult(requestId: string, userId: string, applyId: Option<string>, prims: Primitives,
                            now: int, outcomes: nat -> Outcome)
      returns (r: Result<CardApplicationResponse.CardApplication, string>, sent: seq<Request>)
      ensures !prims.privateKeyParses(privateKey) ==> r == Err(InvalidPrivateKey) && sent == []
      ensures prims.privateKeyParses(privateKey) ==>
                r == match Retried(retryAttempts, outcomes).result
                     case Err(e) => Err(e)
                     case Ok(body) => CardApplicationResponse.FromArray(body)
      ensures forall i :: 0 <= i < |sent| ==>
                sent[i].verb == "post" && sent[i].url == baseUrl + ApplyResultEndpoint &&
                Get(sent[i].payload, "request_id") == Some(Str(requestId)) &&
                Get(sent[i].payload, "user_id") == Some(Str(userId)) &&
                Get(sent[i].payload, "apply_id") == Get(ApplyResultData(requestId, userId, applyId), "apply_id")
    {
      var data := [("request_id", Str(requestId)), ("user_id", Str(userId))];
      if applyId.Some? && !IsEmpty(Str(applyId.value)) {
        data := Put(data, "apply_id", Str(applyId.value));
      }
      assert data == ApplyResultData(requestId, userId, applyId);
      ghost var sleeps: seq<nat>;
      var response;
      response, sent, sleeps := MakeRequest("POST", ApplyResultEndpoint, data, prims, now, outcomes);
      PostLowered();
      if prims.privateKeyParses(privateKey) {
        ApplyResultPayload(ApplyResultEndpoint, data, requestId, userId, partnerId, privateKey, now, prims);
      }
      if response.Err? {
        return Err(response.error), sent;
      }
      r := CardApplicationResponse.FromArray(response.value);
    }

    /** `verifyWebhookSignature($payload, $signature)` with `webhooks.secret` set to `secret`:
        testing mode accepts everything; an empty secret accepts everything; otherwise the
        signature must equal the HMAC-SHA256 of the payload's JSON under the secret. An array
        secret cannot be passed as the HMAC key and raises a type error. */
    function VerifyWebhookSignature(payload: Array, signature: string, secret: Value, prims: Primitives)
      : (r: Result<bool, string>)
      ensures r == Ok(true) <==>
                testingMode || IsEmpty(secret) ||
                (!secret.Arr? &&
                 prims.hmacSha256Hex(prims.jsonEncode(Arr(payload)).UnwrapOr(""), ToPhpString(secret)) == signature)
      ensures r.Err? <==> !testingMode && !IsEmpty(secret) && secret.Arr?
    {
      if testingMode then Ok(true)
      else if IsEmpty(secret) then Ok(true)
      else
        var key :- CoerceString(secret);
        Ok(prims.hmacSha256Hex(prims.jsonEncode(Arr(payload)).UnwrapOr(""), key) == signature)
    }

    /** `processWebhook($payload, $signature)`, with `events.dispatch_on_webhook` read as
        `dispatchOnWebhook`: a rejected signature fails before anything is dispatched; an
        accepted one yields `{status: 'processed', event_type: …}` and dispatches only when
        events are enabled and dispatching on webhooks is on. */
    function ProcessWebhook(payload: Array, signature: string, secret: Value, dispatchOnWebhook: bool,
                            prims: Primitives): (r: Result<Processed, string>)
      ensures VerifyWebhookSignature(payload, signature, secret, prims) == Ok(false) ==>
                r == Err(InvalidWebhookSignature)
      ensures r.Ok? ==> VerifyWebhookSignature(payload, signature, secret, prims) == Ok(true)
      ensures r.Ok? ==> |r.value.body| == 2
      ensures r.Ok? ==> Get(r.value.body, "status") == Some(Str("processed"))
      ensures r.Ok? ==> Get(r.value.body, "event_type") == Some(EventTypeValue(payload))
      ensures r.Ok? && r.value.dispatched.Some? ==> eventsEnabled && dispatchOnWebhook
      ensures r.Ok? && eventsEnabled && dispatchOnWebhook ==> Dispatch(payload, signature) == Ok(r.value.dispatched)
      ensures VerifyWebhookSignature(payload, signature, secret, prims) == Ok(true) ==>
                (r.Err? <==> eventsEnabled && dispatchOnWebhook && DispatchKey(payload).Arr?)
    {
      var valid :- VerifyWebhookSignature(payload, signature, secret, prims);
      if !valid then Err(InvalidWebhookSignature)
      else
        var eventType := EventTypeValue(payload);
        var dispatched :- if eventsEnabled && dispatchOnWebhook then Dispatch(payload, signature) else Ok(None);
        var body := [("status", Str("processed")), ("event_type", eventType)];
        GetAt(body, 0);
        GetAt(body, 1);
        Ok(Processed(body, dispatched))
    }
  }

  /** Outside testing mode, with a secret configured, a signature that is not the payload's
      HMAC is refused and nothing is dispatched. */
  lemma ForgedSignatureRejected(service: MuseWalletService, payload: Array, signature: string, key: string,
                                dispatchOnWebhook: bool, prims: Primitives)
    requires !service.testingMode && key != "" && key != "0"
    requires signature != prims.hmacSha256Hex(prims.jsonEncode(Arr(payload)).UnwrapOr(""), key)
    ensures service.ProcessWebhook(payload, signature, Str(key), dispatchOnWebhook, prims) == Err(InvalidWebhookSignature)
  {
    assert !IsEmpty(Str(key));
  }

  /** In testing mode any signature is accepted, whatever the secret. */
  lemma TestingModeAcceptsAnySignature(service: MuseWalletService, payload: Array, signature: string, secret: Value,
                                       dispatchOnWebhook: bool, prims: Primitives)
    requires service.testingMode && !DispatchKey(payload).Arr?
    ensures service.ProcessWebhook(payload, signature, secret, dispatchOnWebhook, prims).Ok?
  {
  }

  /** An accepted webhook whose type is in the table dispatches that event, carrying the payload,
      the signature and the type, and reports the type back. */
  lemma RoutedWebhookDispatched(service: MuseWalletService, payload: Array, signature: string, secret: Value,
                                prims: Primitives, t: string)
    requires service.VerifyWebhookSignature(payload, signature, secret, prims) == Ok(true)
    requires service.eventsEnabled
    requires DispatchKey(payload) == Str(t) && t in EventMap
    ensures service.ProcessWebhook(payload, signature, secret, true, prims).Ok?
    ensures Get(service.ProcessWebhook(payload, signature, secret, true, prims).value.body, "event_type") == Some(Str(t))
    ensures service.ProcessWebhook(payload, signature, secret, true, prims).value.dispatched ==
              Some(WebhookEvent(EventMap[t], payload, t, signature))
  {
    DispatchedEventCarriesType(payload, signature, t);
    assert "" !in EventMap;
    assert EventTypeValue(payload) == Str(t);
  }

  /** An accepted webhook whose type is not in the table is processed without error and
      dispatches nothing. */
  lemma UnknownTypeIgnored(service: MuseWalletService, payload: Array, signature: string, secret: Value,
                           dispatchOnWebhook: bool, prims: Primitives, t: string)
    requires service.VerifyWebhookSignature(payload, signature, secret, prims) == Ok(true)
    requires DispatchKey(payload) == Str(t) && t !in EventMap
    ensures service.ProcessWebhook(payload, signature, secret, dispatchOnWebhook, prims).Ok?
    ensures service.ProcessWebhook(payload, signature, secret, dispatchOnWebhook, prims).value.dispatched == None
  {
  }

  /** A webhook with neither `type` nor `event_type` is reported as `unknown` and dispatches
      nothing. */
  lemma UntypedWebhookReportedUnknown(service: MuseWalletService, payload: Array, signature: string, secret: Value,
                                      dispatchOnWebhook: bool, prims: Primitives)
    requires service.VerifyWebhookSignature(payload, signature, secret, prims) == Ok(true)
    requires Isset(payload, "type").None? && Isset(payload, "event_type").None?
    ensures service.ProcessWebhook(payload, signature, secret, dispatchOnWebhook, prims).Ok?
    ensures Get(service.ProcessWebhook(payload, signature, secret, dispatchOnWebhook, prims).value.body, "event_type") ==
              Some(Str("unknown"))
    ensures service.ProcessWebhook(payload, signature, secret, dispatchOnWebhook, prims).value.dispatched == None
  {
    UntypedNotDispatched(payload, signature);
  }
}
