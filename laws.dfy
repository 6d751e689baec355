/** Properties relating several operations of the coordinator. */
module Laws {
  import opened Outcomes
  import opened Payload
  import opened Bus
  import opened Patrol

  /** Deselecting twice leaves the same globals and store as deselecting once. */
  lemma DeselectIdempotent(s: Session, t: Topics)
    ensures WithoutLog(DeselectStep(DeselectStep(s, t).state, t).state) == WithoutLog(DeselectStep(s, t).state)
  {
  }

  /** Silencing twice leaves the same globals and store as silencing once. */
  lemma SilenceIdempotent(s: Session, t: Topics)
    ensures WithoutLog(SilenceStep(SilenceStep(s, t).state, t).state) == WithoutLog(SilenceStep(s, t).state)
  {
  }

  /** A selection replaces the previous session entirely: two sessions that
      differ in anything but ALARM_TRIGGERED, the connection flags and the store
      are indistinguishable once the same circuit is selected. */
  lemma SelectForgetsPreviousSession(s1: Session, s2: Session, t: Topics, id: int)
    requires s1.store == s2.store && id in s1.store
    requires s1.alarmTriggered == s2.alarmTriggered
    requires s1.appConnected == s2.appConnected && s1.connected == s2.connected
    ensures WithoutLog(SelectStep(s1, t, id).state) == WithoutLog(SelectStep(s2, t, id).state)
  {
  }

  /** Completion keeps the save target: saving after DONE writes the same record
      with the same circuit as saving before it. */
  lemma DoneKeepsSaveTarget(s: Session, t: Topics)
    ensures SaveStep(DoneStep(s, t).state).outcome == SaveStep(s).outcome
    ensures SaveStep(DoneStep(s, t).state).state.store == SaveStep(s).state.store
  {
  }

  /** A save never writes the in-memory alarm times or completion flag into the
      store: every record keeps the alarms and completed it had. */
  lemma SaveKeepsRecordAlarms(s: Session, k: int)
    requires k in s.store
    ensures k in SaveStep(s).state.store
    ensures SaveStep(s).state.store[k].alarms == s.store[k].alarms
    ensures SaveStep(s).state.store[k].completed == s.store[k].completed
  {
  }

  /** Silencing and then selecting leaves the alarm off and the alarm times
      of the newly selected record, whatever the previous session raised. */
  lemma SilenceThenSelect(s: Session, t: Topics, id: int)
    requires id in s.store
    ensures var r := SelectStep(SilenceStep(s, t).state, t, id).state;
      !r.alarmTriggered && r.alarms == s.store[id].alarms
  {
  }

  /** An alarm before any circuit was selected: ALARMS is still None, so the
      append raises after ALARM_TRIGGERED was set, and nothing is published. */
  lemma AlarmBeforeSelectionFails(store: map<int, Shift>, t: Topics, card: string, checkpoint: Json,
                                  due: int, stamp: string)
    ensures var r := OverdueStep(Initial(store), t, card, checkpoint, due, stamp);
      r.outcome == Failed(NotAList) && r.state.alarmTriggered && r.state.alarms == JNull && r.state.outbox == []
  {
  }

  /** The patrol scenario: select a circuit with no alarm times yet, an overdue
      report arrives, the operator silences it, the handler reports DONE. */
  lemma OverdueSilenceDoneScenario(s: Session, t: Topics, id: int, card: string, checkpoint: Json,
                                   due: int, stamp: string)
    requires id in s.store && s.store[id].alarms == JList([])
    ensures var s1 := SelectStep(s, t, id).state;
      var s2 := OverdueStep(s1, t, card, checkpoint, due, stamp).state;
      var s3 := SilenceStep(s2, t).state;
      var s4 := DoneStep(s3, t).state;
      s2.alarmTriggered && s2.alarms == JList([JStr(stamp)])
      && !s3.alarmTriggered && s3.alarms == JList([JStr(stamp)])
      && s4.circuitCompleted && !s4.shiftStatus && s4.currentCircuit == Some(id)
  {
  }
}
