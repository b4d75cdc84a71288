/** The step-by-step protocol and the sequential handler describe the same code. */
module HandleRefinement {
  import opened Store
  import opened Protocol
  import P = Persist

  /** The next step of goroutine t, successful. */
  function Next(s: State, t: Thread): State {
    Step(s, Advance(t, Fine, ""))
  }

  /** A delivery whose five steps nobody interrupts. */
  function Delivered(s: State, t: Thread, ev: Event): State {
    Next(Next(Next(Next(Next(Step(s, Deliver(t, ev)), t), t), t), t), t)
  }

  /** It does to the database what the handler does, and makes the callback for the run exactly when the handler
      makes it for the run's conversation. */
  lemma UninterruptedDelivery(s: State, t: Thread, ev: Event, cleared: seq<ConvId>)
    requires At(s, t).Idle?
    ensures
      var s' := Delivered(s, t, ev);
      var w' := P.Handled(P.World(s.db, cleared), ev);
      && s'.db == w'.db
      && ((s'.notified == s.notified && w'.cleared == cleared)
          || (ev.run in s.db.runs && s'.notified == s.notified + [ev.run]
              && w'.cleared == cleared + [s.db.runs[ev.run].conv]))
  {
    if !P.Applies(s.db, ev) {
      IgnoredEvent(s, t, ev, cleared);
    } else {
      var s2 := Next(Next(Step(s, Deliver(t, ev)), t), t);
      Inserted(s, t, ev);
      if KeyOf(ev) in s.db.journal {
        assert Next(s2, t) == s2;
      } else {
        NewEvent(s2, t, ev, s.db.runs[ev.run]);
      }
      hide InsertEvent, EnsureSubagentRun, InsertAnswer, SaveRun, Step;
    }
  }

  /** The first two steps. */
  lemma Inserted(s: State, t: Thread, ev: Event)
    requires At(s, t).Idle? && P.Applies(s.db, ev)
    ensures
      var row, s' := s.db.runs[ev.run], Next(Next(Step(s, Deliver(t, ev)), t), t);
      && s'.db == EnsureSubagentRun(InsertEvent(s.db, ev), row.conv, ev) && s'.notified == s.notified
      && At(s', t) == if KeyOf(ev) in s.db.journal then Idle else PAnswer(ev, row)
  {
    hide InsertEvent, EnsureSubagentRun, InsertAnswer, SaveRun;
    var row := s.db.runs[ev.run];
    var s0 := Step(s, Deliver(t, ev));
    assert At(s0, t) == PInsert(ev, row) && s0.db == s.db && s0.notified == s.notified;
    var s1 := Next(s0, t);
    assert s1.db == InsertEvent(s.db, ev) && At(s1, t) == PSubagent(ev, row, KeyOf(ev) !in s.db.journal);
  }

  /** An event without a run, without a number, or of an unknown run changes nothing. */
  lemma IgnoredEvent(s: State, t: Thread, ev: Event, cleared: seq<ConvId>)
    requires At(s, t).Idle? && (ev.run == "" || ev.number <= 0 || ev.run !in s.db.runs)
    ensures Delivered(s, t, ev) == s && P.Handled(P.World(s.db, cleared), ev) == P.World(s.db, cleared)
  {}

  lemma NewEvent(s: State, t: Thread, ev: Event, row: RunRow)
    requires At(s, t) == PAnswer(ev, row)
    ensures
      var d4 := SaveRun(InsertAnswer(s.db, row, ev), row, ev);
      var clears := ev.payload.Finished? && Holds(d4, row.conv, ev.run);
      var s' := Next(Next(Next(s, t), t), t);
      && s'.db == (if clears then Clear(d4, row.conv, ev.run) else d4)
      && s'.notified == s.notified + if clears then [ev.run] else []
  {
    hide InsertAnswer, SaveRun;
    var s1 := Next(s, t);
    assert At(s1, t) == PSave(ev, row) && s1.db == InsertAnswer(s.db, row, ev) && s1.notified == s.notified;
    var s2 := Next(s1, t);
    assert At(s2, t) == (if ev.payload.Finished? then PClear(ev, row) else Idle);
    assert s2.db == SaveRun(s1.db, row, ev) && s2.notified == s.notified;
  }
}
