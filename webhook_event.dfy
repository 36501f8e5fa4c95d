/** The event raised for an incoming webhook: the payload, the signature header and the event
    type, with the accessors every concrete event shares. The receive time is not modelled. */
module MuseWalletWebhookEvent {
  import opened Wrappers
  import opened PhpValue

  /** The concrete event classes a webhook can be dispatched as. */
  datatype EventKind =
    | CardCreated | CardActivated | CardBlocked
    | TransactionCompleted | TransactionFailed | TopUpCompleted
    | KycApproved | KycRejected
    | ApplicationApproved | ApplicationRejected

  datatype WebhookEvent = WebhookEvent(kind: EventKind, payload: Array, eventType: string, signature: string)

  /** `$payload['type'] ?? $payload['event_type'] ?? 'unknown'`. */
  function EventTypeValue(payload: Array): Value {
    Isset(payload, "type").OrElse(Isset(payload, "event_type")).UnwrapOr(Str("unknown"))
  }

  /** The constructor: the event type is stored in a `string` property, so an array there is a
      type error and any other scalar is converted. */
  function New(kind: EventKind, payload: Array, signature: string): (r: Result<WebhookEvent, string>)
    ensures r.Err? <==> EventTypeValue(payload).Arr?
    ensures r.Ok? ==> r.value.kind == kind && r.value.payload == payload && r.value.signature == signature
    ensures forall s :: Isset(payload, "type") == Some(Str(s)) ==> r.Ok? && r.value.eventType == s
    ensures forall s :: Isset(payload, "type").None? && Isset(payload, "event_type") == Some(Str(s)) ==>
                          r.Ok? && r.value.eventType == s
    ensures Isset(payload, "type").None? && Isset(payload, "event_type").None? ==>
              r.Ok? && r.value.eventType == "unknown"
  {
    var eventType :- CoerceString(EventTypeValue(payload));
    Ok(WebhookEvent(kind, payload, eventType, signature))
  }

  /** `getData()`: `$this->payload['data'] ?? []` under an `array` return type. */
  function GetData(e: WebhookEvent): (r: Result<Array, string>)
    ensures Isset(e.payload, "data").None? ==> r == Ok([])
    ensures forall a :: Isset(e.payload, "data") == Some(Arr(a)) ==> r == Ok(a)
    ensures r.Err? <==> Isset(e.payload, "data").Some? && !Isset(e.payload, "data").value.Arr?
  {
    match Isset(e.payload, "data")
    case None => Ok([])
    case Some(v) => if v.Arr? then Ok(v.entries) else Err(TypeError)
  }

  /** `$this->payload['data'][$key] ?? …`: only an array payload has entries. */
  function DataField(e: WebhookEvent, key: string): (r: Option<Value>)
    ensures Isset(e.payload, "data").None? ==> r.None?
    ensures forall a :: Isset(e.payload, "data") == Some(Arr(a)) ==> r == Isset(a, key)
  {
    Index(Isset(e.payload, "data").UnwrapOr(Null), key)
  }

  /** A getter `$this->payload['data'][$key] ?? null` under a `?string` return type. */
  function Text(e: WebhookEvent, key: string): (r: Result<Option<string>, string>)
    ensures DataField(e, key).None? ==> r == Ok(None)
    ensures forall s :: DataField(e, key) == Some(Str(s)) ==> r == Ok(Some(s))
    ensures r.Err? <==> DataField(e, key).Some? && DataField(e, key).value.Arr?
  {
    CoerceNullableString(DataField(e, key))
  }

  /** A getter `$this->payload['data'][$key] ?? $this->payload['data'][$fallback] ?? null`:
      the first key wins when it is set, the second is read only when it is not. */
  function TextOr(e: WebhookEvent, key: string, fallback: string): (r: Result<Option<string>, string>)
    ensures DataField(e, key).Some? ==> r == Text(e, key)
    ensures DataField(e, key).None? ==> r == Text(e, fallback)
  {
    CoerceNullableString(DataField(e, key).OrElse(DataField(e, fallback)))
  }

  /** Without a `data` array every getter answers null. */
  lemma NoDataNoText(e: WebhookEvent, key: string, fallback: string)
    requires Isset(e.payload, "data").None? || !Isset(e.payload, "data").value.Arr?
    ensures Text(e, key) == Ok(None) && TextOr(e, key, fallback) == Ok(None)
  {
  }

  /** A numeric field is converted to text on the way out: the integer 3 reads as "3". */
  lemma IntegerFieldAsText(e: WebhookEvent, key: string)
    requires DataField(e, key) == Some(Int(3))
    ensures Text(e, key) == Ok(Some("3"))
  {
    assert NatToString(3) == "3";
  }
}
