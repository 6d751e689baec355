/** The message-bus boundary: which handler a topic selects, how each handler
    reads its payload by position, and how an invalid scan is labelled. */
module Bus {
  import opened Outcomes
  import opened Payload
  import opened Text

  /** The topic names the application subscribes and publishes to. Their
      strings live in app/mqtts.py, which is not part of this model. */
  datatype Topics = Topics(
    overdue: string,     // CHKS_OVERDUE
    connected: string,   // CONNECTED
    alerts: string,      // ALERTS
    done: string,        // DONE
    shiftOnOff: string,  // SHIFT_ON_OFF
    alarm: string)       // ALARM

  const ConnectedSegment := "connected"
  const OverdueSegment := "overdue-scan"
  const CardNotOnDuty := "card not on duty"
  const StolenCard := "STOLEN CARD"
  const UnknownCard := "UNKNOWN CARD"

  /** The branch of on_mqtt_message a topic selects. */
  datatype Route = ToConnectivity | ToOverdue | ToAlerts | ToDone | Unhandled

  /** The branch order of on_mqtt_message: two suffix tests on the last
      '/'-segment, then exact equality with ALERTS, then with DONE. */
  function Dispatch(t: Topics, topic: string): (r: Route)
    ensures r == ToConnectivity <==> LastSegment(topic) == ConnectedSegment
    ensures r == ToOverdue <==> LastSegment(topic) == OverdueSegment
    ensures r == ToAlerts <==>
      LastSegment(topic) !in {ConnectedSegment, OverdueSegment} && topic == t.alerts
    ensures r == ToDone <==>
      LastSegment(topic) !in {ConnectedSegment, OverdueSegment} && topic != t.alerts && topic == t.done
  {
    var last := LastSegment(topic);
    if last == ConnectedSegment then ToConnectivity
    else if last == OverdueSegment then ToOverdue
    else if topic == t.alerts then ToAlerts
    else if topic == t.done then ToDone
    else Unhandled
  }

  /** Any topic ending in "/connected" or "/overdue-scan" reaches the connectivity
      or overdue handler, whatever its prefix and whatever ALERTS and DONE are. */
  lemma SuffixTopicsDispatch(t: Topics, prefix: string)
    ensures Dispatch(t, prefix + "/" + ConnectedSegment) == ToConnectivity
    ensures Dispatch(t, prefix + "/" + OverdueSegment) == ToOverdue
  {
    LastSegmentAfterSlash(prefix, ConnectedSegment);
    LastSegmentAfterSlash(prefix, OverdueSegment);
  }

  /** An inbound event after its payload has been unpacked. */
  datatype Event =
    | Connectivity(client: Json, connected: Json)
    | Overdue(cardId: string, checkpoint: Json, due: int)
    | Scan(valid: bool, reason: Json, card: Json, checkpoint: Json, time: Json,
           scanInfo: seq<(string, Json)>)
    | Completion

  /** Unpacking list(payload.values()) into exactly n names. */
  function Unpack(payload: Json, n: nat): (r: Result<seq<Json>>)
    ensures r.Success? <==> payload.JObject? && |payload.entries| == n
    ensures r.Success? ==> r.value == Values(payload.entries)
    ensures r.Failure? ==>
      r.error == if payload.JObject? then WrongValueCount(n, |payload.entries|) else NotAnObject
  {
    if !payload.JObject? then Failure(NotAnObject)
    else if |payload.entries| != n then Failure(WrongValueCount(n, |payload.entries|))
    else Success(Values(payload.entries))
  }

  /** The argument datetime.fromtimestamp accepts: a Python int (a bool is one,
      with False and True as 0 and 1). */
  function Epoch(v: Json): (r: Result<int>)
    ensures r.Success? <==> v.JInt? || v.JBool?
    ensures v.JInt? ==> r == Success(v.i)
    ensures v.JBool? ==> r == Success(if v.b then 1 else 0)
    ensures r.Success? ==> (r.value != 0 <==> Truthy(v))
    ensures r.Failure? ==> r.error == NotANumber
  {
    match v
    case JInt(i) => Success(i)
    case JBool(b) => Success(if b then 1 else 0)
    case _ => Failure(NotANumber)
  }

  /** A payload the selected handler unpacks without raising (a later failure,
      such as upper-casing a reason that is not a string, belongs to the step): no
      topic outside the four handlers has one, DONE takes any payload, and each
      other handler needs a dict. */
  predicate WellFormed(route: Route, payload: Json): (r: bool)
    ensures route == Unhandled ==> !r
    ensures route == ToDone ==> r
    ensures r && route != ToDone ==> payload.JObject?
    ensures r && route == ToOverdue ==> |payload.entries| == 4 && payload.entries[0].1.JStr? && (payload.entries[2].1.JInt? || payload.entries[2].1.JBool?)
  {
    match route
    case ToConnectivity => payload.JObject? && |payload.entries| == 2
    case ToOverdue =>
      payload.JObject? && |payload.entries| == 4
      && Epoch(payload.entries[2].1).Success? && payload.entries[0].1.JStr?
    case ToAlerts => payload.JObject? && |payload.entries| == 5
    case ToDone => true
    case Unhandled => false
  }

  /** Positional decoding of a payload for the handler its topic selected: two
      values for connectivity, four for overdue (the epoch is formatted, then the
      card id upper-cased, before any state changes), five for scan alerts, whose
      scan info is the items after the first two; DONE never reads its payload. */
  function Decode(route: Route, payload: Json): (r: Result<Event>)
    requires route != Unhandled
    ensures r.Success? <==> WellFormed(route, payload)
    ensures r.Success? && route == ToConnectivity ==>
      r.value == Connectivity(payload.entries[0].1, payload.entries[1].1)
    ensures r.Success? && route == ToOverdue ==>
      r.value == Overdue(payload.entries[0].1.s, payload.entries[1].1, Epoch(payload.entries[2].1).value)
    ensures r.Success? && route == ToAlerts ==>
      r.value == Scan(Truthy(payload.entries[0].1), payload.entries[1].1, payload.entries[2].1,
                      payload.entries[3].1, payload.entries[4].1, payload.entries[2..])
    ensures route == ToDone ==> r == Success(Completion)
    ensures r.Failure? && !payload.JObject? ==> r.error == NotAnObject
    ensures r.Failure? && route == ToConnectivity && payload.JObject? ==>
      r.error == WrongValueCount(2, |payload.entries|)
    ensures r.Failure? && route == ToAlerts && payload.JObject? ==>
      r.error == WrongValueCount(5, |payload.entries|)
    ensures r.Failure? && route == ToOverdue && payload.JObject? ==>
      r.error == if |payload.entries| != 4 then WrongValueCount(4, |payload.entries|)
                 else if Epoch(payload.entries[2].1).Failure? then NotANumber
                 else NotAString
  {
    match route
    case ToDone => Success(Completion)
    case ToConnectivity =>
      (match Unpack(payload, 2)
       case Failure(e) => Failure(e)
       case Success(v) => Success(Connectivity(v[0], v[1])))
    case ToOverdue =>
      (match Unpack(payload, 4)
       case Failure(e) => Failure(e)
       case Success(v) =>
         match Epoch(v[2])
         case Failure(e) => Failure(e)
         case Success(due) => if v[0].JStr? then Success(Overdue(v[0].s, v[1], due)) else Failure(NotAString))
    case ToAlerts =>
      (match Unpack(payload, 5)
       case Failure(e) => Failure(e)
       case Success(v) => Success(Scan(Truthy(v[0]), v[1], v[2], v[3], v[4], payload.entries[2..])))
  }

  /** The payloads the devices publish, with the keys the handlers document. */
  function ConnectivityPayload(client: Json, connected: Json): Json {
    JObject([("id", client), ("connected", connected)])
  }

  function OverduePayload(card: string, checkpoint: Json, due: int, checked: Json): Json {
    JObject([("id", JStr(card)), ("checkpoint", checkpoint), ("time", JInt(due)), ("checked", checked)])
  }

  function ScanPayload(valid: bool, reason: Json, card: Json, checkpoint: Json, time: Json): Json {
    JObject([("valid", JBool(valid)), ("reason", reason), ("id", card), ("checkpoint", checkpoint), ("time", time)])
  }

  /** Decoding recovers what a device encoded. */
  lemma DecodeDevicePayloads(client: Json, connected: Json, card: string, checkpoint: Json, due: int,
                             checked: Json, valid: bool, reason: Json, id: Json, time: Json)
    ensures Decode(ToConnectivity, ConnectivityPayload(client, connected)) == Success(Connectivity(client, connected))
    ensures Decode(ToOverdue, OverduePayload(card, checkpoint, due, checked)) == Success(Overdue(card, checkpoint, due))
    ensures Decode(ToAlerts, ScanPayload(valid, reason, id, checkpoint, time))
         == Success(Scan(valid, reason, id, checkpoint, time, [("id", id), ("checkpoint", checkpoint), ("time", time)]))
  {
  }

  /** The label of an invalid scan: a card that is not on duty is a stolen card
      when it is registered and an unknown card otherwise; any other reason is
      shown upper-cased. A reason that is not a string fails at .upper(). */
  function Tag(reason: Json, registered: bool): (r: Result<string>)
    ensures reason == JStr(CardNotOnDuty) ==> r == Success(if registered then StolenCard else UnknownCard)
    ensures reason.JStr? && reason != JStr(CardNotOnDuty) ==> r == Success(Upper(reason.s))
    ensures !reason.JStr? ==> r == Failure(NotAString)
  {
    if reason == JStr(CardNotOnDuty) then Success(if registered then StolenCard else UnknownCard)
    else if reason.JStr? then Success(Upper(reason.s))
    else Failure(NotAString)
  }

  /** Every tag is upper-case, and for an off-duty card it tells registered
      from unregistered cards apart. */
  lemma TagProperties(reason: Json, registered: bool)
    ensures Tag(reason, registered).Success? ==> NoLower(Tag(reason, registered).value)
    ensures reason == JStr(CardNotOnDuty) ==>
      (Tag(reason, registered) == Success(StolenCard) <==> registered)
  {
    if reason.JStr? && reason != JStr(CardNotOnDuty) {
      UpperIsUpperCase(reason.s);
    }
  }
}
