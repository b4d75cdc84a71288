/** When a pending wake is attended to: over every history of the protocol, exactly which steps let a report wait
    although the slot of its conversation is free and no goroutine is about to look. */
module WakeAttention {
  import opened Common
  import opened WakeQueue
  import opened Store
  import opened Protocol

  /** A report waits although a run could start. */
  predicate Waits(s: State, c: ConvId) {
    Live(s, c) && s.db.convs[c].active.None? && Queued(s, c) != []
  }

  /** The goroutine is about to look at the slot and the queue of this conversation. */
  predicate Attends(pc: Pc, c: ConvId) {
    match pc
    case TRead(d) => d == c
    case TTake(d) => d == c
    case PNotify(d) => d == c
    case _ => false
  }

  ghost predicate Attended(s: State, c: ConvId) {
    Waits(s, c) ==> exists t :: Attends(At(s, t), c)
  }

  ghost predicate AllAttended(s: State) {
    forall c :: Attended(s, c)
  }

  ghost predicate OthersAttend(s: State, t: Thread, c: ConvId) {
    exists u :: u != t && Attends(At(s, u), c)
  }

  /** The step leaves a report waiting unless another goroutine attends: a look at the conversation fails, a cleared
      slot is not followed by its callback, or a batch is put back although the slot is free. */
  predicate TurnsAway(s: State, pc: Pc, o: Outcome, c: ConvId) {
    match pc
    case TRead(d) => d == c && !o.Fine? && Waits(s, c)
    case PNotify(d) => d == c && !o.Fine? && Waits(s, c)
    case PClear(ev, row) => row.conv == c && o.FailsAfter? && Holds(s.db, c, ev.run) && Live(s, c) && Queued(s, c) != []
    case TRestore(d, batch) => d == c && Live(s, c) && s.db.convs[c].active.None? && (batch != [] || Queued(s, c) != [])
    case _ => false
  }

  /** The step strands the reports of this conversation. */
  ghost predicate Strands(s: State, a: Action, c: ConvId) {
    a.Advance? && TurnsAway(s, At(s, a.thread), a.outcome, c) && !OthersAttend(s, a.thread, c)
  }

  /** Only conversations that exist have reports, and goroutines to handle them. */
  ghost predicate KnownConvs(s: State) {
    (forall c :: Queued(s, c) != [] ==> c in s.db.convs) && forall t :: KnownPc(s, At(s, t))
  }

  predicate KnownPc(s: State, pc: Pc) {
    match pc
    case WakeAdd(c, _) => c in s.db.convs
    case TRead(c) => c in s.db.convs
    case TTake(c) => c in s.db.convs
    case TCreate(c, _) => c in s.db.convs
    case TClaim(c, _, _) => c in s.db.convs
    case TWrite(c, _, _) => c in s.db.convs
    case TRestore(c, _) => c in s.db.convs
    case PNotify(c) => c in s.db.convs
    case _ => true
  }

  lemma SomeoneAttends(s: State, t: Thread, c: ConvId)
    ensures (exists u :: Attends(At(s, u), c)) <==> Attends(At(s, t), c) || OthersAttend(s, t, c)
  {}

  // One step of one goroutine, with nobody else in sight

  /** t is the only one that may attend to c, and does so if a report waits. */
  predicate AloneAttends(s: State, pc: Pc, c: ConvId) {
    Waits(s, c) ==> Attends(pc, c)
  }

  lemma MergedSome(batch: seq<Report>, current: seq<Report>)
    ensures Merged(batch, current) != [] <==> batch != [] || current != []
  {
    if batch == [] && current != [] {
      MergedIds(batch, current);
      assert current[0] in current && current[0] in Merged(batch, current);
    } else {
      MergedIds(batch, current);
    }
  }

  lemma WakesAlone(s: State, t: Thread, o: Outcome, newId: RunId, c: ConvId)
    requires InWakes(At(s, t)) && AloneAttends(s, At(s, t), c)
    ensures
      var s' := AdvanceWakes(s, t, At(s, t), o, newId);
      Waits(s', c) && !Attends(At(s', t), c) <==> TurnsAway(s, At(s, t), o, c)
  {
    hide Added, Merged;
    var pc := At(s, t);
    if pc.WakeAdd? {
      AddedIds(Queued(s, pc.conv), pc.report);
    } else if pc.TRestore? {
      MergedSome(pc.batch, Queued(s, pc.conv));
    }
  }

  lemma PostAlone(s: State, t: Thread, o: Outcome, newId: RunId, c: ConvId)
    requires InPost(At(s, t)) && AloneAttends(s, At(s, t), c)
    ensures
      var s' := AdvancePost(s, t, At(s, t), o, newId);
      Waits(s', c) && !Attends(At(s', t), c) <==> TurnsAway(s, At(s, t), o, c)
  {}

  lemma PersistAlone(s: State, t: Thread, o: Outcome, c: ConvId)
    requires InPersist(At(s, t)) && AloneAttends(s, At(s, t), c)
    ensures
      var s' := AdvancePersist(s, t, At(s, t), o);
      Waits(s', c) && !Attends(At(s', t), c) <==> TurnsAway(s, At(s, t), o, c)
  {
    var pc := At(s, t);
    match pc {
      case PInsert(ev, row) => ConvsUntouched(s.db, row, ev);
      case PSubagent(ev, row, _) => ConvsUntouched(s.db, row, ev);
      case PAnswer(ev, row) => ConvsUntouched(s.db, row, ev);
      case PSave(ev, row) => ConvsUntouched(s.db, row, ev);
      case _ =>
    }
    hide InsertEvent, EnsureSubagentRun, InsertAnswer, SaveRun;
  }

  lemma ConvsUntouched(db: Db, row: RunRow, ev: Event)
    ensures InsertEvent(db, ev).convs == EnsureSubagentRun(db, row.conv, ev).convs == db.convs
    ensures InsertAnswer(db, row, ev).convs == SaveRun(db, row, ev).convs == db.convs
  {}

  // One step among all goroutines

  lemma OthersStay(s: State, s': State, t: Thread, c: ConvId)
    requires forall u :: u != t ==> At(s', u) == At(s, u)
    ensures OthersAttend(s', t, c) <==> OthersAttend(s, t, c)
  {
    if u: Thread :| u != t && Attends(At(s, u), c) {
      assert Attends(At(s', u), c);
    }
    if u: Thread :| u != t && Attends(At(s', u), c) {
      assert Attends(At(s, u), c);
    }
  }

  lemma AdvanceMovesOne(s: State, t: Thread, o: Outcome, newId: RunId)
    ensures forall u :: u != t ==> At(Step(s, Advance(t, o, newId)), u) == At(s, u)
  {
    hide AdvanceWakes, AdvancePost, AdvancePersist;
    var pc := At(s, t);
    if InWakes(pc) {
      WakesMovesOne(s, t, pc, o, newId);
    } else if InPost(pc) {
      PostMovesOne(s, t, pc, o, newId);
    } else if InPersist(pc) {
      PersistMovesOne(s, t, pc, o);
    }
  }

  lemma WakesMovesOne(s: State, t: Thread, pc: Pc, o: Outcome, newId: RunId)
    requires InWakes(pc)
    ensures forall u :: u != t ==> At(AdvanceWakes(s, t, pc, o, newId), u) == At(s, u)
  {}

  lemma PostMovesOne(s: State, t: Thread, pc: Pc, o: Outcome, newId: RunId)
    requires InPost(pc)
    ensures forall u :: u != t ==> At(AdvancePost(s, t, pc, o, newId), u) == At(s, u)
  {}

  lemma PersistMovesOne(s: State, t: Thread, pc: Pc, o: Outcome)
    requires InPersist(pc)
    ensures forall u :: u != t ==> At(AdvancePersist(s, t, pc, o), u) == At(s, u)
  {}

  lemma AdvanceStrands(s: State, t: Thread, o: Outcome, newId: RunId, c: ConvId)
    requires Attended(s, c)
    ensures !Attended(Step(s, Advance(t, o, newId)), c) <==> Strands(s, Advance(t, o, newId), c)
  {
    var pc := At(s, t);
    var s' := Step(s, Advance(t, o, newId));
    AdvanceMovesOne(s, t, o, newId);
    OthersStay(s, s', t, c);
    SomeoneAttends(s, t, c);
    SomeoneAttends(s', t, c);
    if !OthersAttend(s, t, c) {
      if InWakes(pc) {
        WakesAlone(s, t, o, newId, c);
      } else if InPost(pc) {
        PostAlone(s, t, o, newId, c);
      } else if InPersist(pc) {
        PersistAlone(s, t, o, c);
      }
    }
    hide AdvanceWakes, AdvancePost, AdvancePersist, Attends, Waits, OthersAttend;
  }

  /** A step leaves a conversation unattended exactly when it strands its reports. */
  lemma StrandsExactly(s: State, a: Action, c: ConvId)
    requires Attended(s, c) && KnownConvs(s)
    ensures !Attended(Step(s, a), c) <==> Strands(s, a, c)
  {
    match a
    case Advance(t, o, newId) => AdvanceStrands(s, t, o, newId, c);
    case _ => OutsideAttends(s, a, c);
  }

  lemma OutsideAttends(s: State, a: Action, c: ConvId)
    requires Attended(s, c) && KnownConvs(s) && !a.Advance?
    ensures Attended(Step(s, a), c)
  {
    var s' := Step(s, a);
    if Waits(s', c) {
      assert Waits(s, c);
      var t :| Attends(At(s, t), c);
      assert Attends(At(s', t), c);
    }
  }

  // Whole histories

  lemma WakesKnown(s: State, t: Thread, o: Outcome, newId: RunId)
    requires KnownConvs(s) && InWakes(At(s, t))
    ensures KnownConvs(AdvanceWakes(s, t, At(s, t), o, newId))
  {
    hide Added, Merged;
    var pc := At(s, t);
    assert KnownPc(s, pc);
    var s' := AdvanceWakes(s, t, pc, o, newId);
    forall u ensures KnownPc(s', At(s', u)) {
      assert KnownPc(s, At(s, u));
    }
  }

  lemma PostKnown(s: State, t: Thread, o: Outcome, newId: RunId)
    requires KnownConvs(s) && InPost(At(s, t))
    ensures KnownConvs(AdvancePost(s, t, At(s, t), o, newId))
  {
    var s' := AdvancePost(s, t, At(s, t), o, newId);
    forall u ensures KnownPc(s', At(s', u)) {
      assert KnownPc(s, At(s, u));
    }
  }

  lemma PersistKnown(s: State, t: Thread, o: Outcome)
    requires KnownConvs(s) && InPersist(At(s, t))
    ensures KnownConvs(AdvancePersist(s, t, At(s, t), o))
  {
    var s' := AdvancePersist(s, t, At(s, t), o);
    forall u ensures KnownPc(s', At(s', u)) {
      assert KnownPc(s, At(s, u));
    }
  }

  lemma StepKnown(s: State, a: Action)
    requires KnownConvs(s)
    ensures KnownConvs(Step(s, a))
  {
    hide AdvanceWakes, AdvancePost, AdvancePersist;
    match a {
      case Advance(t, o, newId) =>
        var pc := At(s, t);
        if InWakes(pc) {
          WakesKnown(s, t, o, newId);
        } else if InPost(pc) {
          PostKnown(s, t, o, newId);
        } else if InPersist(pc) {
          PersistKnown(s, t, o);
        }
      case _ =>
        forall u ensures KnownPc(Step(s, a), At(Step(s, a), u)) {
          assert KnownPc(s, At(s, u));
        }
    }
  }

  lemma {:induction false} AlwaysKnown(actions: seq<Action>)
    ensures KnownConvs(Exec(actions))
  {
    if actions != [] {
      AlwaysKnown(actions[..|actions| - 1]);
      StepKnown(Exec(actions[..|actions| - 1]), actions[|actions| - 1]);
    }
  }

  ghost predicate NothingStrands(actions: seq<Action>) {
    forall n, c :: 0 <= n < |actions| ==> !Strands(Exec(actions[..n]), actions[n], c)
  }

  ghost predicate AlwaysAttended(actions: seq<Action>) {
    forall n :: 0 <= n <= |actions| ==> AllAttended(Exec(actions[..n]))
  }

  lemma {:induction false} AttendedUpTo(actions: seq<Action>, n: nat)
    requires n <= |actions| && NothingStrands(actions)
    ensures AllAttended(Exec(actions[..n]))
  {
    hide Step, Strands, Attended;
    if n == 0 {
      assert Exec([]) == START;
      StartAttended();
    } else {
      AttendedUpTo(actions, n - 1);
      AlwaysKnown(actions[..n - 1]);
      assert actions[..n][..n - 1] == actions[..n - 1];
      forall c ensures Attended(Exec(actions[..n]), c) {
        StrandsExactly(Exec(actions[..n - 1]), actions[n - 1], c);
      }
    }
  }

  lemma StartAttended()
    ensures AllAttended(START)
  {}

  /** Over every history: at every moment each waiting report whose conversation has a free slot is being attended
      to, if and only if no step of the history strands any. */
  lemma AttendedExactly(actions: seq<Action>)
    ensures AlwaysAttended(actions) <==> NothingStrands(actions)
  {
    hide Exec, Step, Strands, Attended;
    if NothingStrands(actions) {
      forall n | 0 <= n <= |actions| ensures AllAttended(Exec(actions[..n])) {
        AttendedUpTo(actions, n);
      }
    }
    if AlwaysAttended(actions) {
      forall n, c | 0 <= n < |actions| ensures !Strands(Exec(actions[..n]), actions[n], c) {
        StrandedStays(actions, n, c);
      }
    }
  }

  lemma StrandedStays(actions: seq<Action>, n: nat, c: ConvId)
    requires n < |actions| && AllAttended(Exec(actions[..n])) && AllAttended(Exec(actions[..n + 1]))
    ensures !Strands(Exec(actions[..n]), actions[n], c)
  {
    hide Step, Strands, Attended;
    AlwaysKnown(actions[..n]);
    assert actions[..n + 1][..n] == actions[..n];
    StrandsExactly(Exec(actions[..n]), actions[n], c);
  }

  /** Neither look fails, a cleared slot gets its callback, and no batch is put back into a conversation whose slot
      is free. */
  predicate Careful(s: State, a: Action) {
    a.Advance? ==>
      match At(s, a.thread)
      case TRead(_) => a.outcome.Fine?
      case PNotify(_) => a.outcome.Fine?
      case PClear(_, _) => !a.outcome.FailsAfter?
      case TRestore(c, _) => !(Live(s, c) && s.db.convs[c].active.None?)
      case _ => true
  }

  /** After a history of careful steps, every report that waits with its slot free is attended to. */
  lemma CarefulIsAttended(actions: seq<Action>, c: ConvId)
    requires forall n :: 0 <= n < |actions| ==> Careful(Exec(actions[..n]), actions[n])
    requires Waits(Exec(actions), c)
    ensures exists t :: Attends(At(Exec(actions), t), c)
  {
    forall n, d | 0 <= n < |actions| ensures !Strands(Exec(actions[..n]), actions[n], d) {
      assert Careful(Exec(actions[..n]), actions[n]);
    }
    AttendedUpTo(actions, |actions|);
    assert actions[..|actions|] == actions;
    assert Attended(Exec(actions), c);
  }

  /** The other half: putting a batch back while the slot is free leaves it waiting, unless another goroutine is
      about to look. */
  lemma RestoreIntoFreeSlot(s: State, t: Thread, c: ConvId, batch: seq<Report>, o: Outcome, newId: RunId)
    requires At(s, t) == TRestore(c, batch) && batch != [] && Live(s, c) && s.db.convs[c].active.None?
    ensures
      var s' := Step(s, Advance(t, o, newId));
      && Waits(s', c) && Ids(Queued(s', c)) == Ids(batch) + Ids(Queued(s, c))
      && (Attended(s', c) <==> OthersAttend(s, t, c))
  {
    var s' := Step(s, Advance(t, o, newId));
    MergedIds(batch, Queued(s, c));
    MergedSome(batch, Queued(s, c));
    assert Merged(batch, []) == batch;
    assert Queued(s', c) == Merged(batch, Queued(s, c));
    AdvanceMovesOne(s, t, o, newId);
    OthersStay(s, s', t, c);
    SomeoneAttends(s', t, c);
  }
}
