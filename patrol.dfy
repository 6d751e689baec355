/** The active patrol session as a value, and one step function per operation
    of the coordinator: the operator actions and the four bus handlers. */
module Patrol {
  import opened Outcomes
  import opened Payload
  import opened Text
  import opened Devices
  import opened Bus

  /** One (sentry name, card alias, card RFID id) triple of a generated shift. */
  datatype Assignment = Assignment(sentry: string, alias: string, rfid: string)

  datatype SentryRecord = SentryRecord(fullName: string)
  datatype CardRecord = CardRecord(alias: string, rfid: string)

  /** A stored Shift row: the generated circuit, its path patrol frequencies,
      its boundaries, whether it completed, and its alarm times. */
  datatype Shift = Shift(start: int, end: int, sentries: seq<Assignment>, circuit: Json,
                         pathFreqs: Json, completed: bool, alarms: Json)

  /** What the schedule generator (utils.generate_circuit) returns. */
  datatype Generated = Generated(start: int, end: int, paths: Json, circuit: Json)

  /** What the database supplies for a new Shift row: its primary key and the
      column defaults of completed and alarms (app/models.py is not part of this model). */
  datatype NewRow = NewRow(id: int, completed: bool, alarms: Json)

  datatype Level = AlertSuccess | AlertDanger

  /** The alerts pushed to viewers; the HTML around them is left out. */
  datatype Notice =
    | OverdueNotice(card: string, checkpoint: Json, due: int)
    | CheckInNotice(card: string, checkpoint: Json, time: Json)
    | AlarmNotice(tag: string, card: string, checkpoint: Json, time: Json)
    | CompleteNotice

  /** One outbound effect: an MQTT publish or subscribe, or a socket.io push. */
  datatype Outbound =
    | Publish(topic: string, payload: string, qos: nat)
    | Subscribe(topic: string, qos: nat)
    | Emit(level: Level, notice: Notice)

  const On := "ON"
  const Off := "OFF"
  /** The quality of service of a publish that names none, and the one alarms use. */
  const QosDefault: nat := 0
  const QosExactlyOnce: nat := 2

  /** The module-level globals of the coordinator, the record store it reads
      and writes, and the log of everything it has published or pushed. */
  datatype Session = Session(
    shiftStatus: bool,              // SHIFT_STATUS
    currentCircuit: Option<int>,    // CURRENT_CIRCUIT
    sentryCircuit: Json,            // SENTRY_CIRCUIT
    paths: Json,                    // PATHS
    start: int,                     // START
    end: int,                       // END
    circuitCompleted: bool,         // CIRCUIT_COMPLETED
    alarms: Json,                   // ALARMS
    alarmTriggered: bool,           // ALARM_TRIGGERED
    appConnected: bool,             // APP_CONNECTED
    connected: map<Device, bool>,   // HANDLER_CONNECTED, CHK_A_CONNECTED .. CHK_D_CONNECTED
    store: map<int, Shift>,
    outbox: seq<Outbound>)

  /** The state after an operation, and how the operation ended. */
  datatype Step = Step(state: Session, outcome: Outcome)

  type CardRegistry = Json -> bool
  type CircuitUpdate = (Json, seq<(string, Json)>) -> Json

  /** The values the globals hold when the application starts. */
  function Initial(store: map<int, Shift>): (s: Session)
    ensures !s.shiftStatus && s.currentCircuit == None && s.sentryCircuit == JNull && s.paths == JNull
    ensures s.start == 0 && s.end == 0 && !s.circuitCompleted && s.alarms == JNull && !s.alarmTriggered
    ensures !s.appConnected && Complete(s.connected) && forall d: Device :: !s.connected[d]
    ensures s.store == store && s.outbox == []
  {
    AllDownIsComplete();
    Session(false, None, JNull, JNull, 0, 0, false, JNull, false, false, AllDown, store, [])
  }

  /** Everything but the outbound log. */
  function WithoutLog(s: Session): Session {
    s.(outbox := [])
  }

  /** The session fields select_circuit copies from the stored shift id. */
  predicate LoadedFrom(s: Session, id: int, c: Shift) {
    s.currentCircuit == Some(id) && s.sentryCircuit == c.circuit && s.paths == c.pathFreqs
    && s.start == c.start && s.end == c.end && s.circuitCompleted == c.completed && s.alarms == c.alarms
  }

  /** select_circuit: loads the stored shift into the session unconditionally,
      whatever was monitored before, sets SHIFT_STATUS and publishes shift ON. It
      leaves ALARM_TRIGGERED, the connection flags and the store as they were. */
  function SelectStep(s: Session, t: Topics, id: int): (r: Step)
    ensures r.outcome.Ok? <==> id in s.store
    ensures r.outcome.Failed? ==> r == Step(s, Failed(NotFound))
    ensures r.outcome.Ok? ==> r.state.shiftStatus && LoadedFrom(r.state, id, s.store[id])
    ensures r.outcome.Ok? ==> r.state.outbox == s.outbox + [Publish(t.shiftOnOff, On, QosDefault)]
    ensures r.state.alarmTriggered == s.alarmTriggered && r.state.appConnected == s.appConnected
    ensures r.state.connected == s.connected && r.state.store == s.store
  {
    if id !in s.store then Step(s, Failed(NotFound))
    else
      var c := s.store[id];
      Step(s.(shiftStatus := true, currentCircuit := Some(id), sentryCircuit := c.circuit,
              paths := c.pathFreqs, start := c.start, end := c.end, circuitCompleted := c.completed,
              alarms := c.alarms, outbox := s.outbox + [Publish(t.shiftOnOff, On, QosDefault)]), Ok)
  }

  /** save_current_circuit: writes SENTRY_CIRCUIT into the circuit of the stored
      shift CURRENT_CIRCUIT names, and into nothing else; NotFound when there is none. */
  function SaveStep(s: Session): (r: Step)
    ensures r.outcome.Ok? <==> s.currentCircuit.Some? && s.currentCircuit.value in s.store
    ensures r.outcome.Failed? ==> r == Step(s, Failed(NotFound))
    ensures r.outcome.Ok? ==>
      var id := s.currentCircuit.value;
      r.state == s.(store := r.state.store)
      && r.state.store.Keys == s.store.Keys
      && r.state.store[id] == s.store[id].(circuit := s.sentryCircuit)
      && forall k :: k in s.store && k != id ==> r.state.store[k] == s.store[k]
  {
    match s.currentCircuit
    case None => Step(s, Failed(NotFound))
    case Some(id) =>
      if id !in s.store then Step(s, Failed(NotFound))
      else Step(s.(store := s.store[id := s.store[id].(circuit := s.sentryCircuit)]), Ok)
  }

  /** deselect_circuit: clears SHIFT_STATUS, CURRENT_CIRCUIT, SENTRY_CIRCUIT,
      START and END, publishes shift OFF, and changes nothing else. */
  function DeselectStep(s: Session, t: Topics): (r: Step)
    ensures r.outcome == Ok
    ensures !r.state.shiftStatus && r.state.currentCircuit == None && r.state.sentryCircuit == JNull
    ensures r.state.start == 0 && r.state.end == 0
    ensures r.state.outbox == s.outbox + [Publish(t.shiftOnOff, Off, QosDefault)]
    ensures r.state.(shiftStatus := s.shiftStatus, currentCircuit := s.currentCircuit,
                     sentryCircuit := s.sentryCircuit, start := s.start, end := s.end, outbox := s.outbox) == s
  {
    Step(s.(shiftStatus := false, currentCircuit := None, sentryCircuit := JNull, start := 0, end := 0,
            outbox := s.outbox + [Publish(t.shiftOnOff, Off, QosDefault)]), Ok)
  }

  /** silence_alarm: clears ALARM_TRIGGERED, publishes alarm OFF at QoS 2, and
      changes nothing else; in particular ALARMS keeps every raise. */
  function SilenceStep(s: Session, t: Topics): (r: Step)
    ensures r.outcome == Ok && !r.state.alarmTriggered
    ensures r.state.alarms == s.alarms
    ensures r.state.outbox == s.outbox + [Publish(t.alarm, Off, QosExactlyOnce)]
    ensures r.state.(alarmTriggered := s.alarmTriggered, outbox := s.outbox) == s
  {
    Step(s.(alarmTriggered := false, outbox := s.outbox + [Publish(t.alarm, Off, QosExactlyOnce)]), Ok)
  }

  /** The subscriptions on_mqtt_connect makes, in order, all at QoS 2. */
  function Subscriptions(topics: seq<string>): (r: seq<Outbound>)
    ensures |r| == |topics|
    ensures forall i :: 0 <= i < |topics| ==> r[i] == Subscribe(topics[i], QosExactlyOnce)
  {
    seq(|topics|, i requires 0 <= i < |topics| => Subscribe(topics[i], QosExactlyOnce))
  }

  function InboundTopics(t: Topics): seq<string> {
    [t.overdue, t.connected, t.alerts, t.done]
  }

  /** on_mqtt_connect: only a CONNACK return code of 0 marks the application
      connected and subscribes to the four inbound topics; APP_CONNECTED is never cleared. */
  function ConnectStep(s: Session, t: Topics, rc: int): (r: Step)
    ensures r.outcome == Ok
    ensures r.state.appConnected == (s.appConnected || rc == 0)
    ensures rc != 0 ==> r.state == s
    ensures rc == 0 ==> r.state == s.(appConnected := true, outbox := s.outbox + Subscriptions(InboundTopics(t)))
  {
    if rc == 0 then Step(s.(appConnected := true, outbox := s.outbox + Subscriptions(InboundTopics(t))), Ok)
    else Step(s, Ok)
  }

  /** The connectivity handler: a known client id sets exactly that device's
      flag to bool(connected); any other id, or one that is not a string, leaves
      every flag as it was. Nothing else changes and nothing is published. */
  function ConnectivityStep(s: Session, client: Json, value: Json): (r: Session)
    ensures forall d: Device :: (d in r.connected) == (d in s.connected || client == JStr(Name(d)))
    ensures forall d: Device :: d in r.connected ==>
      r.connected[d] == if client == JStr(Name(d)) then Truthy(value) else s.connected[d]
    ensures r == s.(connected := r.connected)
  {
    if client.JStr? && Parse(client.s).Some? then
      s.(connected := s.connected[Parse(client.s).value := Truthy(value)])
    else s
  }

  /** The alarm protocol shared by the overdue and invalid-scan handlers:
      ALARM_TRIGGERED is set first; then one time is appended to ALARMS and alarm
      ON is published at QoS 2. When ALARMS is not a list (it is None until a
      circuit is selected) the append raises and nothing is appended or published. */
  function RaiseAlarm(s: Session, t: Topics, stamp: string): (r: Step)
    ensures r.state.alarmTriggered
    ensures r.outcome == (if s.alarms.JList? then Ok else Failed(NotAList))
    ensures s.alarms.JList? ==>
      r.state == s.(alarmTriggered := true, alarms := JList(s.alarms.items + [JStr(stamp)]),
                    outbox := s.outbox + [Publish(t.alarm, On, QosExactlyOnce)])
    ensures !s.alarms.JList? ==> r.state == s.(alarmTriggered := true)
  {
    var raised := s.(alarmTriggered := true);
    match s.alarms
    case JList(items) =>
      Step(raised.(alarms := JList(items + [JStr(stamp)]),
                   outbox := s.outbox + [Publish(t.alarm, On, QosExactlyOnce)]), Ok)
    case _ => Step(raised, Failed(NotAList))
  }

  /** The overdue handler: always raises the alarm, whether or not the card and
      checkpoint are in the monitored circuit, and then pushes a danger alert.
      SENTRY_CIRCUIT is not touched. */
  function OverdueStep(s: Session, t: Topics, card: string, checkpoint: Json, due: int, stamp: string): (r: Step)
    ensures r.state.alarmTriggered
    ensures r.outcome == (if s.alarms.JList? then Ok else Failed(NotAList))
    ensures s.alarms.JList? ==>
      r.state == s.(alarmTriggered := true, alarms := JList(s.alarms.items + [JStr(stamp)]),
                    outbox := s.outbox + [Publish(t.alarm, On, QosExactlyOnce),
                                          Emit(AlertDanger, OverdueNotice(Upper(card), checkpoint, due))])
    ensures !s.alarms.JList? ==> r.state == s.(alarmTriggered := true)
  {
    var a := RaiseAlarm(s, t, stamp);
    if a.outcome.Failed? then a
    else Step(a.state.(outbox := a.state.outbox + [Emit(AlertDanger, OverdueNotice(Upper(card), checkpoint, due))]), Ok)
  }

  /** The scan-alert handler. A valid scan hands SENTRY_CIRCUIT and the scan info
      to update_circuit and pushes a success alert; it raises no alarm. An invalid
      scan derives its tag, raises the alarm and pushes a danger alert. The card id
      is upper-cased only when the alert is built, after the state has changed. */
  function ScanStep(s: Session, t: Topics, valid: bool, reason: Json, card: Json, checkpoint: Json,
                    time: Json, info: seq<(string, Json)>, registered: CardRegistry,
                    update: CircuitUpdate, stamp: string): (r: Step)
    ensures valid ==>
      r.state.(sentryCircuit := s.sentryCircuit, outbox := s.outbox) == s
      && r.state.sentryCircuit == update(s.sentryCircuit, info)
      && r.outcome == (if card.JStr? then Ok else Failed(NotAString))
      && r.state.outbox == s.outbox + (if card.JStr? then [Emit(AlertSuccess, CheckInNotice(Upper(card.s), checkpoint, time))] else [])
    ensures !valid && !reason.JStr? ==> r == Step(s, Failed(NotAString))
    ensures !valid && reason.JStr? && !s.alarms.JList? ==> r == Step(s.(alarmTriggered := true), Failed(NotAList))
    ensures !valid && reason.JStr? && s.alarms.JList? ==>
      r.state.(alarmTriggered := s.alarmTriggered, alarms := s.alarms, outbox := s.outbox) == s
      && r.state.alarmTriggered
      && r.state.alarms == JList(s.alarms.items + [JStr(stamp)])
      && r.outcome == (if card.JStr? then Ok else Failed(NotAString))
      && r.state.outbox == s.outbox + [Publish(t.alarm, On, QosExactlyOnce)]
           + (if card.JStr? then [Emit(AlertDanger, AlarmNotice(Tag(reason, registered(card)).value, Upper(card.s), checkpoint, time))] else [])
  {
    if valid then
      var updated := s.(sentryCircuit := update(s.sentryCircuit, info));
      if card.JStr? then
        Step(updated.(outbox := s.outbox + [Emit(AlertSuccess, CheckInNotice(Upper(card.s), checkpoint, time))]), Ok)
      else Step(updated, Failed(NotAString))
    else
      match Tag(reason, registered(card))
      case Failure(e) => Step(s, Failed(e))
      case Success(tag) =>
        var a := RaiseAlarm(s, t, stamp);
        if a.outcome.Failed? then a
        else if card.JStr? then
          Step(a.state.(outbox := a.state.outbox + [Emit(AlertDanger, AlarmNotice(tag, Upper(card.s), checkpoint, time))]), Ok)
        else Step(a.state, Failed(NotAString))
  }

  /** The done handler: marks the circuit completed, ends the shift, publishes
      shift OFF and pushes a completion alert. CURRENT_CIRCUIT and SENTRY_CIRCUIT
      are kept, so a later save still writes the same record. */
  function DoneStep(s: Session, t: Topics): (r: Step)
    ensures r.outcome == Ok
    ensures r.state.circuitCompleted && !r.state.shiftStatus
    ensures r.state.outbox == s.outbox + [Publish(t.shiftOnOff, Off, QosDefault), Emit(AlertSuccess, CompleteNotice)]
    ensures r.state.(circuitCompleted := s.circuitCompleted, shiftStatus := s.shiftStatus, outbox := s.outbox) == s
  {
    Step(s.(circuitCompleted := true, shiftStatus := false,
            outbox := s.outbox + [Publish(t.shiftOnOff, Off, QosDefault), Emit(AlertSuccess, CompleteNotice)]), Ok)
  }

  /** The events that go through the alarm protocol. */
  predicate RaisesAlarm(e: Event) {
    e.Overdue? || (e.Scan? && !e.valid && e.reason.JStr?)
  }

  /** One decoded event, handled by its handler. Alarm events set ALARM_TRIGGERED
      and, when ALARMS is a list, append exactly one entry to it and publish alarm
      ON; every other event leaves both alone. No event touches APP_CONNECTED or
      the store, none clears the completion flag, only a connectivity event
      changes a connection flag, and connectivity and DONE never fail (an unknown
      client id is ignored). */
  function EventStep(s: Session, t: Topics, e: Event, registered: CardRegistry,
                     update: CircuitUpdate, stamp: string): (r: Step)
    ensures RaisesAlarm(e) ==> r.state.alarmTriggered
    ensures RaisesAlarm(e) && s.alarms.JList? ==>
      r.state.alarms == JList(s.alarms.items + [JStr(stamp)])
      && |r.state.outbox| > |s.outbox| && r.state.outbox[|s.outbox|] == Publish(t.alarm, On, QosExactlyOnce)
    ensures RaisesAlarm(e) && !s.alarms.JList? ==> r == Step(s.(alarmTriggered := true), Failed(NotAList))
    ensures !RaisesAlarm(e) ==> r.state.alarmTriggered == s.alarmTriggered && r.state.alarms == s.alarms
    ensures s.outbox <= r.state.outbox
    ensures r.state.appConnected == s.appConnected && r.state.store == s.store
    ensures s.circuitCompleted ==> r.state.circuitCompleted
    ensures !e.Connectivity? ==> r.state.connected == s.connected
    ensures Complete(s.connected) ==> Complete(r.state.connected)
    ensures e.Connectivity? || e.Completion? ==> r.outcome == Ok
  {
    match e
    case Connectivity(client, value) => Step(ConnectivityStep(s, client, value), Ok)
    case Overdue(card, checkpoint, due) => OverdueStep(s, t, card, checkpoint, due, stamp)
    case Scan(valid, reason, card, checkpoint, time, info) =>
      ScanStep(s, t, valid, reason, card, checkpoint, time, info, registered, update, stamp)
    case Completion => DoneStep(s, t)
  }

  /** on_mqtt_message: dispatch on the topic, decode the payload, handle the
      event. A malformed payload changes nothing; a topic of no handler is ignored. */
  function MessageStep(s: Session, t: Topics, topic: string, payload: Json, registered: CardRegistry,
                       update: CircuitUpdate, stamp: string): (r: Step)
    ensures Dispatch(t, topic) == Unhandled ==> r == Step(s, Ok)
    ensures Dispatch(t, topic) != Unhandled && !WellFormed(Dispatch(t, topic), payload) ==>
      r.state == s && r.outcome.Failed?
    ensures Dispatch(t, topic) != Unhandled && WellFormed(Dispatch(t, topic), payload) ==>
      r == EventStep(s, t, Decode(Dispatch(t, topic), payload).value, registered, update, stamp)
  {
    var route := Dispatch(t, topic);
    if route == Unhandled then Step(s, Ok)
    else
      match Decode(route, payload)
      case Failure(e) => Step(s, Failed(e))
      case Success(e) => EventStep(s, t, e, registered, update, stamp)
  }

  /** The assignments create_route builds: the i-th selected sentry with the
      i-th selected card; CountMismatch when their numbers differ. */
  function Assignments(sentries: seq<SentryRecord>, cards: seq<CardRecord>): (r: Result<seq<Assignment>>)
    ensures r.Success? <==> |sentries| == |cards|
    ensures r.Failure? ==> r.error == CountMismatch
    ensures r.Success? ==> |r.value| == |cards| && forall i :: 0 <= i < |cards| ==>
      r.value[i].sentry == sentries[i].fullName && r.value[i].alias == cards[i].alias && r.value[i].rfid == cards[i].rfid
  {
    if |cards| != |sentries| then Failure(CountMismatch)
    else Success(seq(|cards|, i requires 0 <= i < |cards| => Assignment(sentries[i].fullName, cards[i].alias, cards[i].rfid)))
  }

  /** create_route: with as many cards as sentries, stores one new shift built
      from the generator's output under a new key, and changes nothing else;
      otherwise it changes nothing at all. */
  function CreateStep(s: Session, sentries: seq<SentryRecord>, cards: seq<CardRecord>, gen: Generated, row: NewRow): (r: Step)
    requires row.id !in s.store
    ensures r.outcome.Ok? <==> |sentries| == |cards|
    ensures r.outcome.Failed? ==> r == Step(s, Failed(CountMismatch))
    ensures r.outcome.Ok? ==>
      r.state == s.(store := r.state.store)
      && r.state.store.Keys == s.store.Keys + {row.id}
      && (forall k :: k in s.store ==> r.state.store[k] == s.store[k])
      && var c := r.state.store[row.id];
         c.start == gen.start && c.end == gen.end && c.circuit == gen.circuit && c.pathFreqs == gen.paths
         && c.sentries == Assignments(sentries, cards).value && c.completed == row.completed && c.alarms == row.alarms
  {
    match Assignments(sentries, cards)
    case Failure(e) => Step(s, Failed(e))
    case Success(assignments) =>
      Step(s.(store := s.store[row.id := Shift(gen.start, gen.end, assignments, gen.circuit, gen.paths, row.completed, row.alarms)]), Ok)
  }
}
