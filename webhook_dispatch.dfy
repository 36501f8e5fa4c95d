/** Which event an incoming webhook is dispatched as: a fixed table from the webhook's type to
    an event class, with MusePay's own type names as aliases of the legacy dotted names. A type
    missing from the table is ignored. */
module WebhookDispatch {
  import opened Wrappers
  import opened PhpValue
  import opened MuseWalletWebhookEvent

  /** The `$eventMap` of `dispatchWebhookEvent`. */
  const EventMap: map<string, EventKind> := map[
    "APPLY_AUDIT" := ApplicationApproved,
    "CARD_TOP_UP" := TopUpCompleted,
    "CARD_BILL_TRANSACTION" := TransactionCompleted,
    "card.created" := CardCreated,
    "card.activated" := CardActivated,
    "card.blocked" := CardBlocked,
    "transaction.completed" := TransactionCompleted,
    "transaction.failed" := TransactionFailed,
    "topup.completed" := TopUpCompleted,
    "kyc.approved" := KycApproved,
    "kyc.rejected" := KycRejected,
    "application.approved" := ApplicationApproved,
    "application.rejected" := ApplicationRejected
  ]

  /** `$payload['type'] ?? $payload['event_type'] ?? ''`. */
  function DispatchKey(payload: Array): Value {
    Isset(payload, "type").OrElse(Isset(payload, "event_type")).UnwrapOr(Str(""))
  }

  /** `isset($eventMap[$eventType])`. A string is looked up as written: PHP turns a decimal
      string key into an integer, but no key of the table is numeric, so that never makes one
      match. An integer or boolean key matches nothing, and an array key is an illegal offset,
      which raises a type error. */
  function Route(payload: Array): (r: Result<Option<EventKind>, string>)
    ensures r.Err? <==> DispatchKey(payload).Arr?
    ensures r.Ok? && r.value.Some? <==> DispatchKey(payload).Str? && DispatchKey(payload).s in EventMap
    ensures r.Ok? && r.value.Some? ==> r.value.value == EventMap[DispatchKey(payload).s]
  {
    match DispatchKey(payload)
    case Str(s) => Ok(if s in EventMap then Some(EventMap[s]) else None)
    case Arr(_) => Err(TypeError)
    case _ => Ok(None)
  }

  /** `dispatchWebhookEvent($payload, $signature)`: the event it dispatches, if any. */
  function Dispatch(payload: Array, signature: string): (r: Result<Option<WebhookEvent>, string>)
    ensures r.Err? <==> DispatchKey(payload).Arr?
    ensures r.Ok? && r.value.Some? <==> Route(payload).Ok? && Route(payload).value.Some?
    ensures r.Ok? && r.value.Some? ==>
              r.value.value.kind == Route(payload).value.value &&
              r.value.value.payload == payload && r.value.value.signature == signature
  {
    var kind :- Route(payload);
    match kind
    case None => Ok(None)
    case Some(k) =>
      var event :- New(k, payload, signature);
      Ok(Some(event))
  }

  /** MusePay's type names and the legacy names they stand beside reach the same event. */
  lemma Aliases()
    ensures EventMap["APPLY_AUDIT"] == EventMap["application.approved"] == ApplicationApproved
    ensures EventMap["CARD_TOP_UP"] == EventMap["topup.completed"] == TopUpCompleted
    ensures EventMap["CARD_BILL_TRANSACTION"] == EventMap["transaction.completed"] == TransactionCompleted
  {
  }

  /** Every event class can be reached from some webhook type. */
  lemma EveryEventRoutable(kind: EventKind)
    ensures exists t :: t in EventMap && EventMap[t] == kind
  {
    match kind
    case CardCreated => assert EventMap["card.created"] == kind;
    case CardActivated => assert EventMap["card.activated"] == kind;
    case CardBlocked => assert EventMap["card.blocked"] == kind;
    case TransactionCompleted => assert EventMap["transaction.completed"] == kind;
    case TransactionFailed => assert EventMap["transaction.failed"] == kind;
    case TopUpCompleted => assert EventMap["topup.completed"] == kind;
    case KycApproved => assert EventMap["kyc.approved"] == kind;
    case KycRejected => assert EventMap["kyc.rejected"] == kind;
    case ApplicationApproved => assert EventMap["application.approved"] == kind;
    case ApplicationRejected => assert EventMap["application.rejected"] == kind;
  }

  /** A dispatched event carries the payload and the signature it came with, and its event
      type is the table key that routed it: the two fallback chains, one ending in `''` and
      the other in `'unknown'`, agree whenever a route is found. */
  lemma DispatchedEventCarriesType(payload: Array, signature: string, t: string)
    requires DispatchKey(payload) == Str(t) && t in EventMap
    ensures Dispatch(payload, signature) == Ok(Some(WebhookEvent(EventMap[t], payload, t, signature)))
  {
    assert "" !in EventMap;
    assert EventTypeValue(payload) == Str(t);
  }

  /** A webhook with neither `type` nor `event_type` is dispatched as nothing. */
  lemma UntypedNotDispatched(payload: Array, signature: string)
    requires Isset(payload, "type").None? && Isset(payload, "event_type").None?
    ensures Dispatch(payload, signature) == Ok(None)
  {
    assert "" !in EventMap;
  }
}
