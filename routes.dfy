/** The coordinator as the Flask/MQTT application runs it: module-level globals
    that the route handlers and the broker callbacks rewrite in place. */
module Routes {
  import opened Outcomes
  import opened Payload
  import opened Text
  import opened Devices
  import opened Bus
  import opened Patrol

  /** The module globals of app/routes.py as fields, rewritten by the handlers
      statement by statement in the code's order; each method is proved to end in
      the state, and return the outcome, of the matching step function of Patrol. */
  class Coordinator {
    const topics: Topics

    var shiftStatus: bool
    var currentCircuit: Option<int>
    var sentryCircuit: Json
    var paths: Json
    var start: int
    var end: int
    var circuitCompleted: bool
    var alarms: Json
    var alarmTriggered: bool
    var appConnected: bool
    var connected: map<Device, bool>
    /** The Shift table of the record store. */
    var store: map<int, Shift>
    /** Every MQTT publish and subscribe and every socket.io push, in order. */
    var outbox: seq<Outbound>

    /** The globals, the store and the outbound log as one value. */
    function State(): Session
      reads this
    {
      Session(shiftStatus, currentCircuit, sentryCircuit, paths, start, end, circuitCompleted,
              alarms, alarmTriggered, appConnected, connected, store, outbox)
    }

    /** The globals as the module initialises them, over an existing store. */
    constructor (topics: Topics, store: map<int, Shift>)
      ensures this.topics == topics && State() == Initial(store)
    {
      this.topics := topics;
      shiftStatus := false;
      currentCircuit := None;
      sentryCircuit := JNull;
      paths := JNull;
      start := 0;
      end := 0;
      circuitCompleted := false;
      alarms := JNull;
      alarmTriggered := false;
      appConnected := false;
      connected := AllDown;
      this.store := store;
      outbox := [];
    }

    method SelectCircuit(id: int) returns (r: Outcome)
      modifies this
      ensures var step := SelectStep(old(State()), topics, id); State() == step.state && r == step.outcome
    {
      if id !in store {
        return Failed(NotFound);
      }
      var circuit := store[id];
      shiftStatus := true;
      currentCircuit := Some(id);
      LoadSchedule(circuit);
      outbox := outbox + [Publish(topics.shiftOnOff, On, QosDefault)];
      r := Ok;
    }

    /** The part of select_circuit that copies the stored row's schedule, bounds,
        completion flag and alarm times into the globals. */
    method LoadSchedule(circuit: Shift)
      modifies this
      ensures State() == old(State()).(sentryCircuit := circuit.circuit, paths := circuit.pathFreqs,
        start := circuit.start, end := circuit.end, circuitCompleted := circuit.completed, alarms := circuit.alarms)
    {
      sentryCircuit := circuit.circuit;
      paths := circuit.pathFreqs;
      start := circuit.start;
      end := circuit.end;
      circuitCompleted := circuit.completed;
      alarms := circuit.alarms;
    }

    method SaveCurrentCircuit() returns (r: Outcome)
      modifies this
      ensures State() == SaveStep(old(State())).state
      ensures r == SaveStep(old(State())).outcome
    {
      if currentCircuit.None? || currentCircuit.value !in store {
        return Failed(NotFound);
      }
      var id := currentCircuit.value;
      var circuit := store[id];
      store := store[id := circuit.(circuit := sentryCircuit)];
      r := Ok;
    }

    method DeselectCircuit()
      modifies this
      ensures State() == DeselectStep(old(State()), topics).state
    {
      shiftStatus := false;
      currentCircuit := None;
      sentryCircuit := JNull;
      start := 0;
      end := 0;
      outbox := outbox + [Publish(topics.shiftOnOff, Off, QosDefault)];
    }

    method SilenceAlarm()
      modifies this
      ensures State() == SilenceStep(old(State()), topics).state
    {
      alarmTriggered := false;
      outbox := outbox + [Publish(topics.alarm, Off, QosExactlyOnce)];
    }

    method CreateRoute(sentries: seq<SentryRecord>, cards: seq<CardRecord>, gen: Generated, row: NewRow)
      returns (r: Outcome)
      requires row.id !in store
      modifies this
      ensures State() == CreateStep(old(State()), sentries, cards, gen, row).state
      ensures r == CreateStep(old(State()), sentries, cards, gen, row).outcome
    {
      if |cards| != |sentries| {
        return Failed(CountMismatch);
      }
      var assignments := Assignments(sentries, cards).value;
      store := store[row.id := Shift(gen.start, gen.end, assignments, gen.circuit, gen.paths, row.completed, row.alarms)];
      r := Ok;
    }

    method OnConnect(rc: int)
      modifies this
      ensures State() == ConnectStep(old(State()), topics, rc).state
    {
      if rc == 0 {
        appConnected := true;
        var inbound := [topics.overdue, topics.connected, topics.alerts, topics.done];
        for i := 0 to |inbound|
          invariant outbox == old(outbox) + Subscriptions(inbound[..i])
          invariant State() == old(State()).(appConnected := true, outbox := outbox)
        {
          assert inbound[..i + 1] == inbound[..i] + [inbound[i]];
          outbox := outbox + [Subscribe(inbound[i], QosExactlyOnce)];
        }
        assert inbound[..|inbound|] == InboundTopics(topics);
      }
    }

    method OnMessage(topic: string, payload: Json, registered: CardRegistry, update: CircuitUpdate, stamp: string)
      returns (r: Outcome)
      modifies this
      ensures State() == MessageStep(old(State()), topics, topic, payload, registered, update, stamp).state
      ensures r == MessageStep(old(State()), topics, topic, payload, registered, update, stamp).outcome
    {
      var route := Dispatch(topics, topic);
      if route == Unhandled {
        return Ok;
      }
      var decoded := Decode(route, payload);
      if decoded.Failure? {
        return Failed(decoded.error);
      }
      r := HandleEvent(decoded.value, registered, update, stamp);
    }

    method HandleEvent(e: Event, registered: CardRegistry, update: CircuitUpdate, stamp: string)
      returns (r: Outcome)
      modifies this
      ensures State() == EventStep(old(State()), topics, e, registered, update, stamp).state
      ensures r == EventStep(old(State()), topics, e, registered, update, stamp).outcome
    {
      match e
      case Connectivity(client, value) =>
        HandleConnectivity(client, value);
        r := Ok;
      case Overdue(card, checkpoint, due) =>
        r := HandleOverdue(card, checkpoint, due, stamp);
      case Scan(valid, reason, card, checkpoint, time, info) =>
        r := HandleScan(valid, reason, card, checkpoint, time, info, registered, update, stamp);
      case Completion =>
        HandleDone();
        r := Ok;
    }

    method HandleConnectivity(client: Json, value: Json)
      modifies this
      ensures State() == ConnectivityStep(old(State()), client, value)
    {
      if client.JStr? {
        var device := Parse(client.s);
        if device.Some? {
          connected := connected[device.value := Truthy(value)];
        }
      }
    }

    method RaiseAlarm(stamp: string) returns (r: Outcome)
      modifies this
      ensures State() == Patrol.RaiseAlarm(old(State()), topics, stamp).state
      ensures r == Patrol.RaiseAlarm(old(State()), topics, stamp).outcome
    {
      alarmTriggered := true;
      if !alarms.JList? {
        return Failed(NotAList);
      }
      alarms := JList(alarms.items + [JStr(stamp)]);
      outbox := outbox + [Publish(topics.alarm, On, QosExactlyOnce)];
      r := Ok;
    }

    method HandleOverdue(card: string, checkpoint: Json, due: int, stamp: string) returns (r: Outcome)
      modifies this
      ensures State() == OverdueStep(old(State()), topics, card, checkpoint, due, stamp).state
      ensures r == OverdueStep(old(State()), topics, card, checkpoint, due, stamp).outcome
    {
      r := RaiseAlarm(stamp);
      if r.Ok? {
        outbox := outbox + [Emit(AlertDanger, OverdueNotice(Upper(card), checkpoint, due))];
      }
    }

    method HandleScan(valid: bool, reason: Json, card: Json, checkpoint: Json, time: Json,
                      info: seq<(string, Json)>, registered: CardRegistry, update: CircuitUpdate, stamp: string)
      returns (r: Outcome)
      modifies this
      ensures State() == ScanStep(old(State()), topics, valid, reason, card, checkpoint, time, info, registered, update, stamp).state
      ensures r == ScanStep(old(State()), topics, valid, reason, card, checkpoint, time, info, registered, update, stamp).outcome
    {
      if valid {
        sentryCircuit := update(sentryCircuit, info);
        if !card.JStr? {
          return Failed(NotAString);
        }
        outbox := outbox + [Emit(AlertSuccess, CheckInNotice(Upper(card.s), checkpoint, time))];
        return Ok;
      }
      var tag := Tag(reason, registered(card));
      if tag.Failure? {
        return Failed(tag.error);
      }
      r := RaiseAlarm(stamp);
      if r.Failed? {
        return;
      }
      if !card.JStr? {
        return Failed(NotAString);
      }
      outbox := outbox + [Emit(AlertDanger, AlarmNotice(tag.value, Upper(card.s), checkpoint, time))];
    }

    method HandleDone()
      modifies this
      ensures State() == DoneStep(old(State()), topics).state
    {
      circuitCompleted := true;
      shiftStatus := false;
      outbox := outbox + [Publish(topics.shiftOnOff, Off, QosDefault), Emit(AlertSuccess, CompleteNotice)];
    }
  }
}
