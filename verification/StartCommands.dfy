/** From taking a slot to the start command: every run that takes a slot gets one, once, unless a step fails. */
module StartCommands {
  import opened Common
  import opened WakeQueue
  import opened Store
  import opened Protocol
  import opened SlotSafety
  import opened WakeLaunch
  import opened WakeAttention

  // One post, undisturbed

  /** The five steps of a posted message, from the request to the command, or as many as there are. */
  function Posting(s: State, t: Thread, c: ConvId, newId: RunId): State {
    Go(Go(Go(Go(Step(s, PostMessage(t, c)), t, newId), t, newId), t, newId), t, newId)
  }

  /** A post nobody interferes with starts one run, without reports, exactly when the slot is free; otherwise it leaves
      a queued run behind, and no command, and the slot as it was. */
  lemma PostLaunches(s: State, t: Thread, c: ConvId, newId: RunId)
    requires At(s, t).Idle? && Live(s, c) && newId !in s.db.runs
    ensures
      var s' := Posting(s, t, c, newId);
      && At(s', t).Idle? && s'.queue == s.queue && newId in s'.db.runs
      && s'.db.runs[newId] == RunRow(c, Main, "queued", None)
      && if s.db.convs[c].active.None?
         then s'.commands == s.commands + [Command(c, newId, [])] && Holds(s'.db, c, newId)
         else s'.commands == s.commands && s'.db.convs == s.db.convs
  {
    var s1 := Go(Step(s, PostMessage(t, c)), t, newId);
    assert At(s1, t) == UClaim(c, newId) && s1.db == CreateRun(s.db, newId, c) && s1.commands == s.commands;
    assert s1.queue == s.queue;
    if s.db.convs[c].active.None? {
      PostClaims(s1, t, c, newId);
    } else {
      IdleStays(Go(s1, t, newId), t, newId);
    }
  }

  lemma PostClaims(s: State, t: Thread, c: ConvId, r: RunId)
    requires At(s, t) == UClaim(c, r) && Live(s, c) && s.db.convs[c].active.None?
    ensures
      var s' := Go(Go(Go(s, t, r), t, r), t, r);
      && At(s', t).Idle? && s'.queue == s.queue && s'.db.runs == s.db.runs
      && s'.commands == s.commands + [Command(c, r, [])] && Holds(s'.db, c, r)
  {
    var s1 := Go(s, t, r);
    assert At(s1, t) == UMessage(c, r) && Holds(s1.db, c, r) && s1.commands == s.commands && s1.queue == s.queue;
    var s2 := Go(s1, t, r);
    assert At(s2, t) == UWrite(c, r) && s2.db == s1.db && s2.commands == s.commands && s2.queue == s.queue;
  }

  // Every history

  ghost predicate Commanded(s: State, c: ConvId, r: RunId) {
    exists i :: 0 <= i < |s.commands| && s.commands[i].conv == c && s.commands[i].run == r
  }

  /** Between taking the slot and writing the command. */
  predicate Starting(pc: Pc, c: ConvId, r: RunId) {
    match pc
    case TWrite(d, _, q) => d == c && q == r
    case UMessage(d, q) => d == c && q == r
    case UWrite(d, q) => d == c && q == r
    case _ => false
  }

  predicate Claiming(pc: Pc, c: ConvId, r: RunId) {
    match pc
    case TClaim(d, _, q) => d == c && q == r
    case UClaim(d, q) => d == c && q == r
    case _ => false
  }

  /** This step is one of the run's own on the way to its command, and fails. */
  predicate FailsStart(s: State, a: Action, c: ConvId, r: RunId) {
    && a.Advance? && !a.outcome.Fine?
    && (Claiming(At(s, a.thread), c, r) || Starting(At(s, a.thread), c, r))
  }

  predicate FailedStart(actions: seq<Action>, c: ConvId, r: RunId) {
    actions != []
    && (|| FailsStart(Exec(actions[..|actions| - 1]), actions[|actions| - 1], c, r)
        || FailedStart(actions[..|actions| - 1], c, r))
  }

  ghost predicate OnItsWay(s: State, c: ConvId, r: RunId) {
    Commanded(s, c, r) || exists t :: Starting(At(s, t), c, r)
  }

  lemma CommandsGrow(s: State, a: Action, c: ConvId, r: RunId)
    requires Commanded(s, c, r)
    ensures Commanded(Step(s, a), c, r)
  {
    var i :| 0 <= i < |s.commands| && s.commands[i].conv == c && s.commands[i].run == r;
    CommandsKept(s, a);
    assert Step(s, a).commands[i] == s.commands[i];
  }

  lemma CommandsKept(s: State, a: Action)
    ensures s.commands <= Step(s, a).commands
  {}

  /** A goroutine on its way goes on, writes the command, or fails. */
  lemma StartingGoesOn(s: State, a: Action, t: Thread, c: ConvId, r: RunId)
    requires Starting(At(s, t), c, r)
    ensures Starting(At(Step(s, a), t), c, r) || Commanded(Step(s, a), c, r) || FailsStart(s, a, c, r)
  {
    if a.Advance? && a.thread == t {
      hide AdvancePersist;
      if a.outcome.Fine? {
        OwnStep(s, At(s, t), t, a.newId, c, r);
      }
    } else if a.Advance? {
      AdvanceMovesOne(s, a.thread, a.outcome, a.newId);
      hide Step, Commanded;
    } else {
      hide AdvanceWakes, AdvancePost, AdvancePersist;
    }
  }

  lemma OwnStep(s: State, pc: Pc, t: Thread, newId: RunId, c: ConvId, r: RunId)
    requires Starting(pc, c, r)
    ensures
      var s' := if pc.TWrite? then AdvanceWakes(s, t, pc, Fine, newId) else AdvancePost(s, t, pc, Fine, newId);
      Starting(At(s', t), c, r) || Commanded(s', c, r)
  {
    if pc.TWrite? {
      var s' := AdvanceWakes(s, t, pc, Fine, newId);
      assert s'.commands[|s.commands|].conv == c && s'.commands[|s.commands|].run == r;
    } else if pc.UWrite? {
      var s' := AdvancePost(s, t, pc, Fine, newId);
      assert s'.commands[|s.commands|].conv == c && s'.commands[|s.commands|].run == r;
    }
  }

  /** Whoever takes a slot is on its way to the command, or fails. */
  lemma TakingStarts(s: State, a: Action, c: ConvId, r: RunId)
    requires Took(c, r) !in s.slotLog && Took(c, r) in Step(s, a).slotLog
    ensures (a.Advance? && Starting(At(Step(s, a), a.thread), c, r)) || FailsStart(s, a, c, r)
  {
    hide AdvanceWakes, AdvancePost, AdvancePersist;
    var pc := At(s, a.thread);
    if InWakes(pc) {
      WakesTake(s, a.thread, pc, a.outcome, a.newId, c, r);
    } else if InPost(pc) {
      PostTakes(s, a.thread, pc, a.outcome, a.newId, c, r);
    } else {
      PersistTookNone(s, a.thread, pc, a.outcome, c, r);
    }
  }

  lemma WakesTake(s: State, t: Thread, pc: Pc, o: Outcome, newId: RunId, c: ConvId, r: RunId)
    requires InWakes(pc) && Took(c, r) !in s.slotLog && Took(c, r) in AdvanceWakes(s, t, pc, o, newId).slotLog
    ensures if o.Fine? then Starting(At(AdvanceWakes(s, t, pc, o, newId), t), c, r) else Claiming(pc, c, r)
  {}

  lemma PostTakes(s: State, t: Thread, pc: Pc, o: Outcome, newId: RunId, c: ConvId, r: RunId)
    requires InPost(pc) && Took(c, r) !in s.slotLog && Took(c, r) in AdvancePost(s, t, pc, o, newId).slotLog
    ensures if o.Fine? then Starting(At(AdvancePost(s, t, pc, o, newId), t), c, r) else Claiming(pc, c, r)
  {}

  lemma PersistTookNone(s: State, t: Thread, pc: Pc, o: Outcome, c: ConvId, r: RunId)
    requires InPersist(pc) && Took(c, r) !in s.slotLog
    ensures Took(c, r) !in AdvancePersist(s, t, pc, o).slotLog
  {}

  lemma {:induction false} TakenIsCommanded(actions: seq<Action>, c: ConvId, r: RunId)
    requires Took(c, r) in Exec(actions).slotLog
    ensures
      || Commanded(Exec(actions), c, r)
      || (exists t :: Starting(At(Exec(actions), t), c, r))
      || FailedStart(actions, c, r)
  {
    hide Step, Starting, FailsStart, Commanded;
    var front, a := actions[..|actions| - 1], actions[|actions| - 1];
    var s, s' := Exec(front), Exec(actions);
    if Took(c, r) in s.slotLog {
      TakenIsCommanded(front, c, r);
      if Commanded(s, c, r) {
        CommandsGrow(s, a, c, r);
      } else if exists t :: Starting(At(s, t), c, r) {
        var t :| Starting(At(s, t), c, r);
        StartingGoesOn(s, a, t, c, r);
      }
    } else {
      TakingStarts(s, a, c, r);
    }
  }

  // At most one command a run

  function StartingRun(pc: Pc): Option<RunId> {
    match pc
    case TWrite(_, _, r) => Some(r)
    case UMessage(_, r) => Some(r)
    case UWrite(_, r) => Some(r)
    case _ => None
  }

  ghost predicate Uncommanded(s: State, r: RunId) {
    forall i :: 0 <= i < |s.commands| ==> s.commands[i].run != r
  }

  ghost predicate Distinct(s: State) {
    forall i, j :: 0 <= i < j < |s.commands| ==> s.commands[i].run != s.commands[j].run
  }

  ghost predicate StartersOk(s: State) {
    && (forall t :: StartingRun(At(s, t)).Some? ==> Uncommanded(s, StartingRun(At(s, t)).value))
    && (forall t, u :: t != u && StartingRun(At(s, t)).Some? ==> StartingRun(At(s, t)) != StartingRun(At(s, u)))
  }

  /** A goroutine has moved to where it starts nothing, and no command was written. */
  lemma MovesAway(s: State, s': State, t: Thread)
    requires Distinct(s) && StartersOk(s) && s'.commands == s.commands
    requires forall u :: u != t ==> At(s', u) == At(s, u)
    requires StartingRun(At(s', t)).None? || StartingRun(At(s', t)) == StartingRun(At(s, t))
    ensures Distinct(s') && StartersOk(s')
  {}

  lemma Begins(s: State, s': State, t: Thread, r: RunId)
    requires Distinct(s) && StartersOk(s) && s'.commands == s.commands
    requires forall u :: u != t ==> At(s', u) == At(s, u)
    requires StartingRun(At(s', t)) == Some(r) && Uncommanded(s, r) && forall u :: StartingRun(At(s, u)) != Some(r)
    ensures Distinct(s') && StartersOk(s')
  {}

  lemma Writes(s: State, s': State, t: Thread, cmd: Command)
    requires Distinct(s) && StartersOk(s) && s'.commands == s.commands + [cmd]
    requires forall u :: u != t ==> At(s', u) == At(s, u)
    requires StartingRun(At(s, t)) == Some(cmd.run) && StartingRun(At(s', t)).None?
    ensures Distinct(s') && StartersOk(s')
  {
    forall u | StartingRun(At(s', u)).Some? ensures Uncommanded(s', StartingRun(At(s', u)).value) {
      assert u != t && StartingRun(At(s, u)) != StartingRun(At(s, t));
    }
  }

  /** A run that is being claimed has no command, and nobody else is starting it. */
  lemma ClaimedIsNew(s: State, t: Thread, r: RunId)
    requires Inv(s) && PendingRun(At(s, t)) == Some(r)
    ensures Uncommanded(s, r) && forall u :: StartingRun(At(s, u)) != Some(r)
  {
    hide SlotsOk, NotifiedOk;
    assert ThreadOk(s, At(s, t));
    forall i | 0 <= i < |s.commands| ensures s.commands[i].run != r {
      assert s.commands[i] in s.commands;
    }
    forall u ensures StartingRun(At(s, u)) != Some(r) {
      assert ThreadOk(s, At(s, u));
    }
  }

  lemma AdvanceStarts(s: State, t: Thread, o: Outcome, newId: RunId)
    requires Inv(s) && Distinct(s) && StartersOk(s)
    ensures Distinct(Step(s, Advance(t, o, newId))) && StartersOk(Step(s, Advance(t, o, newId)))
  {
    hide Inv, Distinct, StartersOk;
    var pc, s' := At(s, t), Step(s, Advance(t, o, newId));
    AdvanceMovesOne(s, t, o, newId);
    StepWrites(s, t, o, newId);
    if s'.commands != s.commands {
      Writes(s, s', t, s'.commands[|s.commands|]);
    } else if PendingRun(pc).Some? && StartingRun(At(s', t)) == PendingRun(pc) {
      ClaimedIsNew(s, t, PendingRun(pc).value);
      Begins(s, s', t, PendingRun(pc).value);
    } else {
      MovesAway(s, s', t);
    }
  }

  /** What one step of a goroutine does to the commands, and to the run it is starting. */
  ghost predicate WritesOwn(s: State, s': State, t: Thread, pc: Pc) {
    && (s'.commands == s.commands || exists cmd: Command ::
          s'.commands == s.commands + [cmd] && StartingRun(pc) == Some(cmd.run) && StartingRun(At(s', t)).None?)
    && (|| StartingRun(At(s', t)).None? || StartingRun(At(s', t)) == StartingRun(pc)
        || StartingRun(At(s', t)) == PendingRun(pc))
  }

  lemma StepWrites(s: State, t: Thread, o: Outcome, newId: RunId)
    ensures WritesOwn(s, Step(s, Advance(t, o, newId)), t, At(s, t))
  {
    hide AdvanceWakes, AdvancePost, AdvancePersist;
    var pc := At(s, t);
    if InWakes(pc) {
      WakesWrite(s, t, pc, o, newId);
    } else if InPost(pc) {
      PostWrites(s, t, pc, o, newId);
    } else if InPersist(pc) {
      PersistWritesNone(s, t, pc, o);
    }
  }

  lemma WakesWrite(s: State, t: Thread, pc: Pc, o: Outcome, newId: RunId)
    requires InWakes(pc)
    ensures WritesOwn(s, AdvanceWakes(s, t, pc, o, newId), t, pc)
  {}

  lemma PostWrites(s: State, t: Thread, pc: Pc, o: Outcome, newId: RunId)
    requires InPost(pc)
    ensures WritesOwn(s, AdvancePost(s, t, pc, o, newId), t, pc)
  {}

  lemma PersistWritesNone(s: State, t: Thread, pc: Pc, o: Outcome)
    requires InPersist(pc)
    ensures WritesOwn(s, AdvancePersist(s, t, pc, o), t, pc)
  {}

  lemma StepStarts(s: State, a: Action)
    requires Inv(s) && Distinct(s) && StartersOk(s)
    ensures Distinct(Step(s, a)) && StartersOk(Step(s, a))
  {
    if a.Advance? {
      AdvanceStarts(s, a.thread, a.outcome, a.newId);
    } else {
      hide Inv, Distinct, StartersOk;
      var t := if a.CreateConversation? || a.DeleteConversation? then 0 else a.thread;
      MovesAway(s, Step(s, a), t);
    }
  }

  lemma {:induction false} StartersAlwaysOk(actions: seq<Action>)
    ensures Distinct(Exec(actions)) && StartersOk(Exec(actions))
  {
    if actions != [] {
      hide Step, Distinct, StartersOk;
      StartersAlwaysOk(actions[..|actions| - 1]);
      ExecOk(actions[..|actions| - 1]);
      StepStarts(Exec(actions[..|actions| - 1]), actions[|actions| - 1]);
    }
  }

  /** Over every history no run gets two start commands. */
  lemma OneCommandARun(actions: seq<Action>, i: nat, j: nat)
    requires i < j < |Exec(actions).commands|
    ensures Exec(actions).commands[i].run != Exec(actions).commands[j].run
  {
    StartersAlwaysOk(actions);
  }
}
