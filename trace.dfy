/** Sequences of operator actions and bus messages, and what holds along them. */
module Trace {
  import opened Outcomes
  import opened Payload
  import opened Devices
  import opened Bus
  import opened Patrol

  /** One input to the coordinator: an operator action or a broker callback. */
  datatype Input =
    | Select(id: int)         // select_circuit
    | Save                    // save_current_circuit
    | Deselect                // deselect_circuit
    | Silence                 // the silence-alarm socket event
    | Connect(rc: int)        // on_mqtt_connect
    | Message(topic: string, payload: Json, stamp: string)  // on_mqtt_message, at local time stamp
    | Create(sentries: seq<SentryRecord>, cards: seq<CardRecord>, gen: Generated,
             completed: bool, alarms: Json)  // create_route, with the row's column defaults

  /** A non-empty set has a member. */
  lemma HasMember(keys: set<int>)
    requires keys != {}
    ensures exists y :: y in keys
  {
    if !exists y :: y in keys {
      assert false;
    }
  }

  /** A key above every stored key, where a new Shift row goes in a trace: one of
      the fresh keys the record store may hand out. */
  ghost function KeyAbove(keys: set<int>): (k: int)
    ensures forall x :: x in keys ==> x < k
    decreases |keys|
  {
    if keys == {} then 1
    else
      HasMember(keys);
      var y :| y in keys;
      var rest := keys - {y};
      var m := KeyAbove(rest);
      assert forall x :: x in keys ==> x == y || x in rest;
      if y < m then m else y + 1
  }

  /** One input applied to a session. Only a silence clears the alarm; only a
      selection replaces ALARMS, whose raises are otherwise only ever appended,
      and only a selection can reset the completion flag; APP_CONNECTED is never
      cleared and changes only on a connect; only bus messages change connection flags; and the outbound log
      only grows. */
  ghost function Apply(s: Session, t: Topics, i: Input, registered: CardRegistry, update: CircuitUpdate): (r: Step)
    ensures s.outbox <= r.state.outbox
    ensures i != Silence && s.alarmTriggered ==> r.state.alarmTriggered
    ensures !i.Select? && s.alarms.JList? ==>
      r.state.alarms.JList? && s.alarms.items <= r.state.alarms.items
    ensures !i.Select? && !s.alarms.JList? ==> r.state.alarms == s.alarms
    ensures !i.Select? && s.circuitCompleted ==> r.state.circuitCompleted
    ensures s.appConnected ==> r.state.appConnected
    ensures !i.Connect? ==> r.state.appConnected == s.appConnected
    ensures !i.Message? ==> r.state.connected == s.connected
    ensures Complete(s.connected) ==> Complete(r.state.connected)
  {
    match i
    case Select(id) => SelectStep(s, t, id)
    case Save => SaveStep(s)
    case Deselect => DeselectStep(s, t)
    case Silence => SilenceStep(s, t)
    case Connect(rc) => ConnectStep(s, t, rc)
    case Message(topic, payload, stamp) => MessageStep(s, t, topic, payload, registered, update, stamp)
    case Create(sentries, cards, gen, completed, alarms) =>
      CreateStep(s, sentries, cards, gen, NewRow(KeyAbove(s.store.Keys), completed, alarms))
  }

  /** The inputs applied in order; an input that fails leaves its partial effect
      and the next input is still processed. */
  ghost function Run(s: Session, t: Topics, inputs: seq<Input>, registered: CardRegistry, update: CircuitUpdate): (r: Session)
    decreases |inputs|
    ensures inputs == [] ==> r == s
    ensures |inputs| == 1 ==> r == Apply(s, t, inputs[0], registered, update).state
  {
    if inputs == [] then s
    else Run(Apply(s, t, inputs[0], registered, update).state, t, inputs[1..], registered, update)
  }

  /** Running two input sequences one after the other is running their
      concatenation: each input starts from the state the previous one left. */
  lemma {:induction false} RunConcatenates(s: Session, t: Topics, a: seq<Input>, b: seq<Input>,
                                           registered: CardRegistry, update: CircuitUpdate)
    decreases |a|
    ensures Run(s, t, a + b, registered, update) == Run(Run(s, t, a, registered, update), t, b, registered, update)
  {
    if a != [] {
      var s' := Apply(s, t, a[0], registered, update).state;
      assert (a + b)[0] == a[0] && (a + b)[1..] == a[1..] + b;
      assert Run(s, t, a + b, registered, update) == Run(s', t, a[1..] + b, registered, update);
      RunConcatenates(s', t, a[1..], b, registered, update);
    } else {
      assert a + b == b;
    }
  }

  /** Alarms never clear themselves: only an explicit silence turns the flag off. */
  lemma {:induction false} AlarmStaysUntilSilenced(s: Session, t: Topics, inputs: seq<Input>,
                                                    registered: CardRegistry, update: CircuitUpdate)
    decreases |inputs|
    requires s.alarmTriggered && forall k :: 0 <= k < |inputs| ==> !inputs[k].Silence?
    ensures Run(s, t, inputs, registered, update).alarmTriggered
  {
    if inputs != [] {
      assert !inputs[0].Silence?;
      AlarmStaysUntilSilenced(Apply(s, t, inputs[0], registered, update).state, t, inputs[1..], registered, update);
    }
  }

  /** Without a selection, the alarm times of the session are only appended to. */
  lemma {:induction false} AlarmHistoryAppendOnly(s: Session, t: Topics, inputs: seq<Input>,
                                                   registered: CardRegistry, update: CircuitUpdate)
    decreases |inputs|
    requires s.alarms.JList? && forall k :: 0 <= k < |inputs| ==> !inputs[k].Select?
    ensures Run(s, t, inputs, registered, update).alarms.JList?
    ensures s.alarms.items <= Run(s, t, inputs, registered, update).alarms.items
  {
    if inputs != [] {
      assert !inputs[0].Select?;
      var s' := Apply(s, t, inputs[0], registered, update).state;
      AlarmHistoryAppendOnly(s', t, inputs[1..], registered, update);
    }
  }

  /** Without a selection, a completed circuit stays completed. */
  lemma {:induction false} CompletionIsMonotone(s: Session, t: Topics, inputs: seq<Input>,
                                                 registered: CardRegistry, update: CircuitUpdate)
    decreases |inputs|
    requires s.circuitCompleted && forall k :: 0 <= k < |inputs| ==> !inputs[k].Select?
    ensures Run(s, t, inputs, registered, update).circuitCompleted
  {
    if inputs != [] {
      assert !inputs[0].Select?;
      CompletionIsMonotone(Apply(s, t, inputs[0], registered, update).state, t, inputs[1..], registered, update);
    }
  }

  /** Once connected to the broker, the application is shown connected for good,
      every device keeps a flag, and nothing published or pushed is ever retracted. */
  lemma {:induction false} RunKeepsConnectionAndLog(s: Session, t: Topics, inputs: seq<Input>,
                                                     registered: CardRegistry, update: CircuitUpdate)
    decreases |inputs|
    ensures s.appConnected ==> Run(s, t, inputs, registered, update).appConnected
    ensures Complete(s.connected) ==> Complete(Run(s, t, inputs, registered, update).connected)
    ensures s.outbox <= Run(s, t, inputs, registered, update).outbox
  {
    if inputs != [] {
      RunKeepsConnectionAndLog(Apply(s, t, inputs[0], registered, update).state, t, inputs[1..], registered, update);
    }
  }

  /** Without a broker connect, APP_CONNECTED keeps its value. */
  lemma {:induction false} OnlyConnectMovesAppFlag(s: Session, t: Topics, inputs: seq<Input>,
                                                    registered: CardRegistry, update: CircuitUpdate)
    decreases |inputs|
    requires forall k :: 0 <= k < |inputs| ==> !inputs[k].Connect?
    ensures Run(s, t, inputs, registered, update).appConnected == s.appConnected
  {
    if inputs != [] {
      assert !inputs[0].Connect?;
      OnlyConnectMovesAppFlag(Apply(s, t, inputs[0], registered, update).state, t, inputs[1..], registered, update);
    }
  }

  /** Operator actions alone never change a device's connection flag. */
  lemma {:induction false} OnlyMessagesMoveFlags(s: Session, t: Topics, inputs: seq<Input>,
                                                  registered: CardRegistry, update: CircuitUpdate)
    decreases |inputs|
    requires forall k :: 0 <= k < |inputs| ==> !inputs[k].Message?
    ensures Run(s, t, inputs, registered, update).connected == s.connected
  {
    if inputs != [] {
      assert !inputs[0].Message?;
      OnlyMessagesMoveFlags(Apply(s, t, inputs[0], registered, update).state, t, inputs[1..], registered, update);
    }
  }
}
