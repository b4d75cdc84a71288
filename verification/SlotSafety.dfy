/** Safety of the active-run slot over every history of the protocol. */
module SlotSafety {
  import opened Common
  import opened WakeQueue
  import opened Store
  import opened Protocol

  // The log of slot changes

  /** Who holds the slot of c according to the log. */
  function Holder(log: seq<SlotOp>, c: ConvId): Option<RunId> {
    if log == [] then None
    else
      var front, last := log[..|log| - 1], log[|log| - 1];
      if last.conv != c then Holder(front, c) else if last.Took? then Some(last.run) else None
  }

  /** A slot is taken only when empty, by a run that never took one before, and emptied only for the run that holds
      it. */
  ghost predicate Legal(log: seq<SlotOp>) {
    if log == [] then true
    else
      var front, last := log[..|log| - 1], log[|log| - 1];
      Legal(front) &&
      if last.Took? then Holder(front, last.conv).None? && NeverTook(front, last.run)
      else Holder(front, last.conv) == Some(last.run)
  }

  ghost predicate NeverTook(log: seq<SlotOp>, r: RunId) {
    forall c :: Took(c, r) !in log
  }

  lemma {:induction false} HolderTook(log: seq<SlotOp>, c: ConvId, r: RunId)
    requires Holder(log, c) == Some(r)
    ensures Took(c, r) in log
  {
    var front, last := log[..|log| - 1], log[|log| - 1];
    assert log == front + [last];
    if last.conv != c {
      HolderTook(front, c, r);
    }
  }

  /** A run that was freed had taken that very slot, and a run takes one slot at most. */
  lemma {:induction false} FreedTook(log: seq<SlotOp>, c: ConvId, d: ConvId, r: RunId)
    requires Legal(log)
    ensures Freed(c, r) in log ==> Took(c, r) in log
    ensures Took(c, r) in log && Took(d, r) in log ==> c == d
  {
    if log != [] {
      var front, last := log[..|log| - 1], log[|log| - 1];
      assert log == front + [last];
      FreedTook(front, c, d, r);
      if last == Freed(c, r) {
        HolderTook(front, c, r);
      }
    }
  }

  /** A run that holds a slot has not been freed. */
  lemma {:induction false} HolderNotFreed(log: seq<SlotOp>, c: ConvId, d: ConvId, r: RunId)
    requires Legal(log) && Holder(log, c) == Some(r)
    ensures Freed(d, r) !in log
  {
    var front, last := log[..|log| - 1], log[|log| - 1];
    assert log == front + [last];
    FreedTook(front, d, d, r);
    if last.conv != c {
      HolderNotFreed(front, c, d, r);
      if last == Freed(d, r) {
        HolderTook(front, c, r);
        HolderTook(front, d, r);
        FreedTook(front, c, d, r);
      }
    }
  }

  /** Over a whole history, no run takes a slot twice and none is freed twice. */
  lemma {:induction false} OncePerRun(log: seq<SlotOp>, i: nat, j: nat)
    requires Legal(log) && i < j < |log| && log[i].run == log[j].run
    ensures log[i].Took? && log[j].Freed? && log[i].conv == log[j].conv
  {
    var front, last := log[..|log| - 1], log[|log| - 1];
    if j < |log| - 1 {
      OncePerRun(front, i, j);
    } else {
      assert log[i] == front[i] && front[i] in front;
      if last.Freed? {
        HolderTook(front, last.conv, last.run);
        if front[i].Freed? {
          HolderNotFreed(front, last.conv, front[i].conv, last.run);
        } else {
          FreedTook(front, last.conv, front[i].conv, last.run);
        }
      } else {
        FreedTook(front, front[i].conv, front[i].conv, last.run);
      }
    }
  }

  lemma OneMoreOp(log: seq<SlotOp>, op: SlotOp)
    ensures Legal(log + [op]) <==>
      && Legal(log)
      && if op.Took? then Holder(log, op.conv).None? && NeverTook(log, op.run)
         else Holder(log, op.conv) == Some(op.run)
    ensures forall c ::
      Holder(log + [op], c) == if op.conv != c then Holder(log, c) else if op.Took? then Some(op.run) else None
  {
    assert (log + [op])[..|log + [op]| - 1] == log;
  }

  // The invariant

  ghost predicate FinishedSeen(s: State, r: RunId) {
    exists n: int :: (r, n) in s.db.journal && s.db.journal[(r, n)].payload.Finished?
  }

  predicate MainRun(s: State, c: ConvId, r: RunId) {
    r in s.db.runs && s.db.runs[r].kind.Main? && s.db.runs[r].conv == c
  }

  /** The slots are what the log says; only main runs of the conversation ever held them, and whoever was
      freed had a run.finished in the journal. */
  ghost predicate SlotsOk(s: State) {
    && Legal(s.slotLog)
    && (forall c :: Holder(s.slotLog, c) == if c in s.db.convs then s.db.convs[c].active else None)
    && (forall op :: op in s.slotLog ==> MainRun(s, op.conv, op.run) && (op.Freed? ==> FinishedSeen(s, op.run)))
  }

  /** Every start command names a run that took the slot of its conversation. */
  ghost predicate CommandsOk(s: State) {
    forall cmd :: cmd in s.commands ==> Took(cmd.conv, cmd.run) in s.slotLog
  }

  /** OnRunCleared is called at most once a run, and only for runs that were freed. */
  ghost predicate NotifiedOk(s: State) {
    && (forall i, j :: 0 <= i < j < |s.notified| ==> s.notified[i] != s.notified[j])
    && (forall r :: r in s.notified ==> exists c :: Freed(c, r) in s.slotLog)
  }

  /** The run a goroutine has created and is about to claim a slot for. */
  function PendingRun(pc: Pc): Option<RunId> {
    match pc
    case TClaim(_, _, r) => Some(r)
    case UClaim(_, r) => Some(r)
    case _ => None
  }

  predicate RowOk(s: State, ev: Event, row: RunRow) {
    ev.run in s.db.runs && s.db.runs[ev.run].conv == row.conv && s.db.runs[ev.run].kind == row.kind
  }

  predicate Journaled(s: State, ev: Event) {
    KeyOf(ev) in s.db.journal && s.db.journal[KeyOf(ev)] == ev
  }

  ghost predicate ThreadOk(s: State, pc: Pc) {
    match pc
    case TClaim(c, _, r) => MainRun(s, c, r) && NeverTook(s.slotLog, r)
    case UClaim(c, r) => MainRun(s, c, r) && NeverTook(s.slotLog, r)
    case TWrite(c, _, r) => Took(c, r) in s.slotLog
    case UMessage(c, r) => Took(c, r) in s.slotLog
    case UWrite(c, r) => Took(c, r) in s.slotLog
    case PInsert(ev, row) => RowOk(s, ev, row)
    case PSubagent(ev, row, inserted) => RowOk(s, ev, row) && (inserted ==> Journaled(s, ev))
    case PAnswer(ev, row) => RowOk(s, ev, row) && Journaled(s, ev)
    case PSave(ev, row) => RowOk(s, ev, row) && Journaled(s, ev)
    case PClear(ev, row) => RowOk(s, ev, row) && Journaled(s, ev) && ev.payload.Finished?
    case _ => true
  }

  ghost predicate ThreadsOk(s: State) {
    && (forall t :: ThreadOk(s, At(s, t)))
    && (forall t, u :: t != u && PendingRun(At(s, t)).Some? ==> PendingRun(At(s, t)) != PendingRun(At(s, u)))
  }

  ghost predicate Inv(s: State) {
    SlotsOk(s) && CommandsOk(s) && NotifiedOk(s) && ThreadsOk(s)
  }

  // One step at a time

  ghost predicate NobodyPending(s: State, r: RunId) {
    forall t :: PendingRun(At(s, t)) != Some(r)
  }

  lemma GotoOk(s: State, t: Thread, pc: Pc)
    requires Inv(s) && ThreadOk(s, pc)
    requires PendingRun(pc).None? || NobodyPending(s, PendingRun(pc).value)
    ensures Inv(Goto(s, t, pc))
  {
    var s' := Goto(s, t, pc);
    assert forall u :: At(s', u) == if u == t then pc else At(s, u);
    hide Legal, Holder, NeverTook, FinishedSeen, NotifiedOk, CommandsOk;
    assert SlotsOk(s') && NotifiedOk(s') && CommandsOk(s') by {
      SameCore(s, s');
    }
  }

  /** The parts of the invariant about slots, commands and callbacks do not look at the goroutines or the queue. */
  lemma SameCore(s: State, s': State)
    requires s'.db == s.db && s'.slotLog == s.slotLog && s'.commands == s.commands && s'.notified == s.notified
    requires SlotsOk(s) && CommandsOk(s) && NotifiedOk(s)
    ensures SlotsOk(s') && CommandsOk(s') && NotifiedOk(s')
  {
    assert forall r :: FinishedSeen(s, r) ==> FinishedSeen(s', r);
  }

  function ActiveOf(s: State, c: ConvId): Option<RunId> {
    if c in s.db.convs then s.db.convs[c].active else None
  }

  /** Rows were added, or changed in ways that matter to no slot. */
  ghost predicate Grows(s: State, s': State) {
    && s'.slotLog == s.slotLog && s'.commands == s.commands && s'.notified == s.notified && s'.pcs == s.pcs
    && (forall c :: ActiveOf(s', c) == ActiveOf(s, c))
    && (forall r :: r in s.db.runs ==>
          r in s'.db.runs && s'.db.runs[r].conv == s.db.runs[r].conv && s'.db.runs[r].kind == s.db.runs[r].kind)
    && (forall k :: k in s.db.journal ==> k in s'.db.journal && s'.db.journal[k] == s.db.journal[k])
  }

  lemma GrowsOk(s: State, s': State)
    requires Inv(s) && Grows(s, s')
    ensures Inv(s')
  {
    hide Legal, NeverTook;
    assert SlotsOk(s') by {
      forall op | op in s'.slotLog ensures MainRun(s', op.conv, op.run) && (op.Freed? ==> FinishedSeen(s', op.run)) {
        if op.Freed? {
          var n :| (op.run, n) in s.db.journal && s.db.journal[(op.run, n)].payload.Finished?;
          assert (op.run, n) in s'.db.journal;
        }
      }
      forall c ensures Holder(s'.slotLog, c) == if c in s'.db.convs then s'.db.convs[c].active else None {
        assert ActiveOf(s', c) == ActiveOf(s, c);
      }
    }
    assert ThreadsOk(s') by {
      forall t ensures ThreadOk(s', At(s', t)) {
        assert ThreadOk(s, At(s, t));
      }
      assert forall t :: At(s', t) == At(s, t);
    }
  }

  lemma CreateOk(s: State, r: RunId, c: ConvId)
    requires Inv(s) && r !in s.db.runs
    ensures Inv(Create(s, r, c)) && MainRun(Create(s, r, c), c, r)
    ensures NeverTook(s.slotLog, r) && NobodyPending(Create(s, r, c), r)
  {
    hide Legal, Holder;
    GrowsOk(s, Create(s, r, c));
    forall d ensures Took(d, r) !in s.slotLog {
      assert Took(d, r) in s.slotLog ==> MainRun(s, d, r);
    }
    forall t ensures PendingRun(At(Create(s, r, c), t)) != Some(r) {
      assert ThreadOk(s, At(s, t));
    }
  }

  /** A goroutine whose claim succeeds leaves its pending state for pc. */
  lemma TakeOk(s: State, t: Thread, c: ConvId, r: RunId, pc: Pc)
    requires Inv(s) && PendingRun(At(s, t)) == Some(r) && MainRun(s, c, r) && Claimable(s.db, c)
    requires PendingRun(pc).None? && ThreadOk(TakeSlot(s, c, r), pc)
    ensures Inv(Goto(TakeSlot(s, c, r), t, pc))
  {
    assert ThreadOk(s, At(s, t));
    assert Legal(TakeSlot(s, c, r).slotLog) by {
      OneMoreOp(s.slotLog, Took(c, r));
      assert Holder(s.slotLog, c).None?;
    }
    hide Legal;
    var s' := Goto(TakeSlot(s, c, r), t, pc);
    assert SlotsOk(s') by {
      OneMoreOp(s.slotLog, Took(c, r));
      hide Holder, NeverTook;
      assert forall q :: FinishedSeen(s, q) ==> FinishedSeen(s', q);
    }
    hide Holder;
    NotifiedGrows(s, s');
    TakeKeepsThreads(s, t, c, r, pc);
  }

  lemma TakeKeepsThreads(s: State, t: Thread, c: ConvId, r: RunId, pc: Pc)
    requires ThreadsOk(s) && PendingRun(At(s, t)) == Some(r) && Claimable(s.db, c)
    requires PendingRun(pc).None? && ThreadOk(TakeSlot(s, c, r), pc)
    ensures ThreadsOk(Goto(TakeSlot(s, c, r), t, pc))
  {
    var s' := Goto(TakeSlot(s, c, r), t, pc);
    assert forall u :: At(s', u) == if u == t then pc else At(s, u);
    forall u ensures ThreadOk(s', At(s', u)) {
      assert ThreadOk(s, At(s, u));
      if u != t && PendingRun(At(s, u)).Some? {
        assert PendingRun(At(s, u)) != Some(r);
      }
    }
  }

  lemma NotifiedGrows(s: State, s': State)
    requires NotifiedOk(s) && s'.notified == s.notified && s.slotLog <= s'.slotLog
    ensures NotifiedOk(s')
  {
    forall q | q in s'.notified ensures exists d :: Freed(d, q) in s'.slotLog {
      var d :| Freed(d, q) in s.slotLog;
      assert Freed(d, q) in s'.slotLog;
    }
  }

  lemma FreeKeepsThreads(s: State, c: ConvId, r: RunId)
    requires ThreadsOk(s) && Holds(s.db, c, r)
    ensures ThreadsOk(FreeSlot(s, c, r))
  {
    var s' := FreeSlot(s, c, r);
    forall t ensures ThreadOk(s', At(s', t)) {
      assert ThreadOk(s, At(s, t));
    }
    assert forall t :: At(s', t) == At(s, t);
  }

  lemma FreeKeepsSlots(s: State, c: ConvId, r: RunId)
    requires Inv(s) && FinishedSeen(s, r) && Holds(s.db, c, r) && Took(c, r) in s.slotLog
    requires Legal(FreeSlot(s, c, r).slotLog) && Holder(FreeSlot(s, c, r).slotLog, c) == None
    requires forall d :: d != c ==> Holder(FreeSlot(s, c, r).slotLog, d) == Holder(s.slotLog, d)
    ensures SlotsOk(FreeSlot(s, c, r))
  {
    hide Legal, Holder;
    var s' := FreeSlot(s, c, r);
    assert forall q :: FinishedSeen(s, q) ==> FinishedSeen(s', q);
    assert MainRun(s, c, r) by { assert Took(c, r).conv == c; }
  }

  lemma FreeOk(s: State, c: ConvId, r: RunId)
    requires Inv(s) && FinishedSeen(s, r)
    ensures Inv(FreeSlot(s, c, r))
    ensures Holds(s.db, c, r) ==> Freed(c, r) in FreeSlot(s, c, r).slotLog && r !in s.notified
  {
    if Holds(s.db, c, r) {
      var s' := FreeSlot(s, c, r);
      assert Holder(s.slotLog, c) == Some(r);
      HolderTook(s.slotLog, c, r);
      OneMoreOp(s.slotLog, Freed(c, r));
      if r in s.notified {
        var d :| Freed(d, r) in s.slotLog;
        HolderNotFreed(s.slotLog, c, d, r);
      }
      FreeKeepsSlots(s, c, r);
      hide Legal, Holder, SlotsOk;
      NotifiedGrows(s, s');
      FreeKeepsThreads(s, c, r);
    }
  }

  lemma SendOk(s: State, cmd: Command)
    requires Inv(s) && Took(cmd.conv, cmd.run) in s.slotLog
    ensures Inv(Send(s, cmd))
  {
    hide Legal, Holder, NeverTook;
    var s' := Send(s, cmd);
    assert forall q :: FinishedSeen(s, q) ==> FinishedSeen(s', q);
    assert ThreadsOk(s') by {
      forall t ensures ThreadOk(s', At(s', t)) {
        assert ThreadOk(s, At(s, t));
      }
      assert forall t :: At(s', t) == At(s, t);
    }
  }

  lemma NotifyOk(s: State, c: ConvId, r: RunId)
    requires Inv(s) && Freed(c, r) in s.slotLog && r !in s.notified
    ensures Inv(s.(notified := s.notified + [r]))
  {
    hide Legal, Holder, NeverTook;
    var s' := s.(notified := s.notified + [r]);
    assert forall q :: FinishedSeen(s, q) ==> FinishedSeen(s', q);
    assert ThreadsOk(s') by {
      forall t ensures ThreadOk(s', At(s', t)) {
        assert ThreadOk(s, At(s, t));
      }
      assert forall t :: At(s', t) == At(s, t);
    }
  }

  lemma WakesOk(s: State, t: Thread, o: Outcome, newId: RunId)
    requires Inv(s) && InWakes(At(s, t))
    ensures Inv(AdvanceWakes(s, t, At(s, t), o, newId))
  {
    hide SlotsOk, CommandsOk, NotifiedOk, NeverTook, Added, Merged;
    var pc := At(s, t);
    assert ThreadOk(s, pc);
    match pc {
      case WakeAdd(c, report) =>
        var s1 := s.(queue := s.queue[c := Added(Queued(s, c), report)], accepted := s.accepted + {(c, report.id)});
        GrowsOk(s, s1);
        GotoOk(s1, t, TRead(c));
      case TRead(c) =>
        GotoOk(s, t, Idle);
        GotoOk(s, t, TDrop(c));
        GotoOk(s, t, TTake(c));
      case TDrop(c) =>
        GrowsOk(s, s.(queue := s.queue - {c}));
        GotoOk(s.(queue := s.queue - {c}), t, Idle);
      case TTake(c) =>
        var s1 := s.(queue := s.queue - {c});
        GrowsOk(s, s1);
        GotoOk(s1, t, Idle);
        GotoOk(s1, t, TCreate(c, Queued(s, c)));
      case TCreate(c, batch) =>
        GotoOk(s, t, TRestore(c, batch));
        if newId !in s.db.runs {
          CreateOk(s, newId, c);
          var s1 := Create(s, newId, c);
          GotoOk(s1, t, TClaim(c, batch, newId));
          GotoOk(s1, t, TRestore(c, batch));
        }
      case TClaim(c, batch, r) =>
        GotoOk(s, t, TRestore(c, batch));
        if Claimable(s.db, c) {
          TakeOk(s, t, c, r, TWrite(c, batch, r));
          TakeOk(s, t, c, r, TRestore(c, batch));
        }
      case TWrite(c, batch, r) =>
        GotoOk(s, t, TRestore(c, batch));
        var cmd := Command(c, r, batch);
        SendOk(s, cmd);
        GotoOk(Send(s, cmd), t, Idle);
        GotoOk(Send(s, cmd), t, TRestore(c, batch));
      case TRestore(c, batch) =>
        var s1 := s.(queue := s.queue[c := if c in s.queue then Merged(batch, s.queue[c]) else batch]);
        GrowsOk(s, s1);
        GotoOk(s1, t, Idle);
    }
  }

  lemma PostOk(s: State, t: Thread, o: Outcome, newId: RunId)
    requires Inv(s) && InPost(At(s, t))
    ensures Inv(AdvancePost(s, t, At(s, t), o, newId))
  {
    hide SlotsOk, CommandsOk, NotifiedOk, NeverTook;
    var pc := At(s, t);
    assert ThreadOk(s, pc);
    GotoOk(s, t, Idle);
    match pc {
      case UCreate(c) =>
        if newId !in s.db.runs {
          CreateOk(s, newId, c);
          GotoOk(Create(s, newId, c), t, UClaim(c, newId));
          GotoOk(Create(s, newId, c), t, Idle);
        }
      case UClaim(c, r) =>
        if Claimable(s.db, c) {
          TakeOk(s, t, c, r, UMessage(c, r));
          TakeOk(s, t, c, r, Idle);
        }
      case UMessage(c, r) =>
        GotoOk(s, t, UWrite(c, r));
      case UWrite(c, r) =>
        SendOk(s, Command(c, r, []));
        GotoOk(Send(s, Command(c, r, [])), t, Idle);
    }
  }

  /** A change of rows that matters to no slot, after which the goroutine goes on to pc or stops. */
  lemma EffectOk(s: State, s1: State, t: Thread, pc: Pc)
    requires Inv(s) && Grows(s, s1) && ThreadOk(s1, pc) && PendingRun(pc).None?
    ensures Inv(Goto(s1, t, pc)) && Inv(Goto(s1, t, Idle))
  {
    GrowsOk(s, s1);
    GotoOk(s1, t, pc);
    GotoOk(s1, t, Idle);
  }

  lemma PersistOk(s: State, t: Thread, o: Outcome)
    requires Inv(s) && InPersist(At(s, t))
    ensures Inv(AdvancePersist(s, t, At(s, t), o))
  {
    hide Inv, Grows, InsertEvent, EnsureSubagentRun, InsertAnswer, SaveRun;
    var pc := At(s, t);
    assert ThreadOk(s, pc) && Inv(Goto(s, t, Idle)) by { StopOk(s, t); }
    match pc {
      case PInsert(ev, row) =>
        InsertOk(s, ev, row);
        EffectOk(s, s.(db := InsertEvent(s.db, ev)), t, PSubagent(ev, row, KeyOf(ev) !in s.db.journal));
      case PSubagent(ev, row, inserted) =>
        SubagentOk(s, ev, row, inserted);
        EffectOk(s, s.(db := EnsureSubagentRun(s.db, row.conv, ev)), t, if inserted then PAnswer(ev, row) else Idle);
      case PAnswer(ev, row) =>
        AnswerOk(s, ev, row);
        EffectOk(s, s.(db := InsertAnswer(s.db, row, ev)), t, PSave(ev, row));
      case PSave(ev, row) =>
        SaveOk(s, ev, row);
        EffectOk(s, s.(db := SaveRun(s.db, row, ev)), t, if ev.payload.Finished? then PClear(ev, row) else Idle);
      case PClear(ev, row) =>
        ClearOk(s, t, ev, row);
      case PNotify(c) =>
        ReadOk(s, t, c);
    }
  }

  lemma StopOk(s: State, t: Thread)
    requires Inv(s)
    ensures ThreadOk(s, At(s, t)) && Inv(Goto(s, t, Idle))
  {
    GotoOk(s, t, Idle);
  }

  lemma ReadOk(s: State, t: Thread, c: ConvId)
    requires Inv(s)
    ensures Inv(Goto(s, t, TRead(c)))
  {
    GotoOk(s, t, TRead(c));
  }

  lemma InsertOk(s: State, ev: Event, row: RunRow)
    requires RowOk(s, ev, row)
    ensures var s1 := s.(db := InsertEvent(s.db, ev));
      Grows(s, s1) && ThreadOk(s1, PSubagent(ev, row, KeyOf(ev) !in s.db.journal))
  {
  }

  lemma SubagentOk(s: State, ev: Event, row: RunRow, inserted: bool)
    requires ThreadOk(s, PSubagent(ev, row, inserted))
    ensures var s1 := s.(db := EnsureSubagentRun(s.db, row.conv, ev));
      Grows(s, s1) && ThreadOk(s1, if inserted then PAnswer(ev, row) else Idle)
  {
  }

  lemma AnswerOk(s: State, ev: Event, row: RunRow)
    requires ThreadOk(s, PAnswer(ev, row))
    ensures var s1 := s.(db := InsertAnswer(s.db, row, ev)); Grows(s, s1) && ThreadOk(s1, PSave(ev, row))
  {
  }

  lemma SaveOk(s: State, ev: Event, row: RunRow)
    requires ThreadOk(s, PSave(ev, row))
    ensures var s1 := s.(db := SaveRun(s.db, row, ev));
      Grows(s, s1) && ThreadOk(s1, if ev.payload.Finished? then PClear(ev, row) else Idle)
  {
  }

  lemma ClearOk(s: State, t: Thread, ev: Event, row: RunRow)
    requires Inv(s) && ThreadOk(s, PClear(ev, row))
    ensures Inv(Goto(FreeSlot(s, row.conv, ev.run), t, Idle))
    ensures Holds(s.db, row.conv, ev.run) ==>
      Inv(Goto(FreeSlot(s, row.conv, ev.run).(notified := s.notified + [ev.run]), t, PNotify(row.conv)))
  {
    hide SlotsOk, CommandsOk, NotifiedOk, NeverTook;
    assert FinishedSeen(s, ev.run) by { assert s.db.journal[(ev.run, ev.number)] == ev; }
    FreeOk(s, row.conv, ev.run);
    var s1 := FreeSlot(s, row.conv, ev.run);
    GotoOk(s1, t, Idle);
    if Holds(s.db, row.conv, ev.run) {
      NotifyOk(s1, row.conv, ev.run);
      GotoOk(s1.(notified := s.notified + [ev.run]), t, PNotify(row.conv));
    }
  }

  lemma StepOk(s: State, a: Action)
    requires Inv(s)
    ensures Inv(Step(s, a))
  {
    hide Inv, ThreadOk, AdvanceWakes, AdvancePost, AdvancePersist;
    match a {
      case CreateConversation(c) => CreateConversationOk(s, c);
      case DeleteConversation(c) => DeleteConversationOk(s, c);
      case ReceiveWake(t, c, report) => PlainGoto(s, t, WakeAdd(c, report));
      case PostMessage(t, c) => PlainGoto(s, t, UCreate(c));
      case Deliver(t, ev) =>
        if ev.run in s.db.runs {
          DeliverOk(s, t, ev);
        }
      case Advance(t, o, newId) =>
        var pc := At(s, t);
        if InWakes(pc) {
          WakesOk(s, t, o, newId);
        } else if InPost(pc) {
          PostOk(s, t, o, newId);
        } else if InPersist(pc) {
          PersistOk(s, t, o);
        }
    }
  }

  lemma CreateConversationOk(s: State, c: ConvId)
    requires Inv(s)
    ensures Inv(Step(s, CreateConversation(c)))
  {
    if c !in s.db.convs {
      hide Inv;
      GrowsOk(s, s.(db := s.db.(convs := s.db.convs[c := Conv(None, false)])));
    }
  }

  lemma DeleteConversationOk(s: State, c: ConvId)
    requires Inv(s)
    ensures Inv(Step(s, DeleteConversation(c)))
  {
    if c in s.db.convs {
      hide Inv;
      GrowsOk(s, s.(db := s.db.(convs := s.db.convs[c := s.db.convs[c].(deleted := true)])));
    }
  }

  lemma PlainGoto(s: State, t: Thread, pc: Pc)
    requires Inv(s) && (pc.WakeAdd? || pc.UCreate?)
    ensures Inv(Goto(s, t, pc))
  {
    GotoOk(s, t, pc);
  }

  lemma DeliverOk(s: State, t: Thread, ev: Event)
    requires Inv(s) && ev.run in s.db.runs
    ensures Inv(Goto(s, t, PInsert(ev, s.db.runs[ev.run])))
  {
    GotoOk(s, t, PInsert(ev, s.db.runs[ev.run]));
  }

  /** The invariant holds after every history. */
  lemma {:induction false} ExecOk(actions: seq<Action>)
    ensures Inv(Exec(actions))
  {
    if actions != [] {
      ExecOk(actions[..|actions| - 1]);
      StepOk(Exec(actions[..|actions| - 1]), actions[|actions| - 1]);
    }
  }

  // What the invariant says about histories

  /** Each step logs at most one change of a slot. */
  lemma LogGrows(s: State, a: Action)
    ensures Step(s, a).slotLog == s.slotLog
         || (|Step(s, a).slotLog| == |s.slotLog| + 1 && Step(s, a).slotLog[..|s.slotLog|] == s.slotLog)
  {
  }

  lemma OnlyLiveTaken(s: State, a: Action, c: ConvId)
    ensures ActiveOf(s, c).None? && ActiveOf(Step(s, a), c).Some? ==> Live(s, c)
  {
    hide AdvanceWakes, AdvancePost, AdvancePersist;
    if a.Advance? {
      var pc := At(s, a.thread);
      if InWakes(pc) {
        WakesTakeLive(s, a.thread, pc, a.outcome, a.newId, c);
      } else if InPost(pc) {
        PostTakesLive(s, a.thread, pc, a.outcome, a.newId, c);
      } else if InPersist(pc) {
        PersistTakesNone(s, a.thread, pc, a.outcome, c);
      }
    }
  }

  lemma WakesTakeLive(s: State, t: Thread, pc: Pc, o: Outcome, newId: RunId, c: ConvId)
    requires InWakes(pc)
    ensures ActiveOf(s, c).None? && ActiveOf(AdvanceWakes(s, t, pc, o, newId), c).Some? ==> Live(s, c)
  {}

  lemma PostTakesLive(s: State, t: Thread, pc: Pc, o: Outcome, newId: RunId, c: ConvId)
    requires InPost(pc)
    ensures ActiveOf(s, c).None? && ActiveOf(AdvancePost(s, t, pc, o, newId), c).Some? ==> Live(s, c)
  {}

  lemma PersistTakesNone(s: State, t: Thread, pc: Pc, o: Outcome, c: ConvId)
    requires InPersist(pc)
    ensures ActiveOf(s, c).None? ==> ActiveOf(AdvancePersist(s, t, pc, o), c).None?
  {}

  /** In every step of every history a slot stays as it is, goes from empty to a new holder, or from its holder,
      whose run.finished is in the journal, to empty. */
  lemma SlotChange(actions: seq<Action>, a: Action, c: ConvId)
    ensures
      var s, s' := Exec(actions), Step(Exec(actions), a);
      || ActiveOf(s', c) == ActiveOf(s, c)
      || (ActiveOf(s, c).None? && ActiveOf(s', c).Some? && Live(s, c) && MainRun(s', c, ActiveOf(s', c).value)
          && NeverTook(s.slotLog, ActiveOf(s', c).value))
      || (ActiveOf(s, c).Some? && ActiveOf(s', c).None? && FinishedSeen(s', ActiveOf(s, c).value))
  {
    var s, s' := Exec(actions), Step(Exec(actions), a);
    ExecOk(actions);
    StepOk(s, a);
    LogGrows(s, a);
    OnlyLiveTaken(s, a, c);
    hide Step, Exec, CommandsOk, NotifiedOk, ThreadsOk, FinishedSeen, NeverTook;
    assert ActiveOf(s, c) == Holder(s.slotLog, c) && ActiveOf(s', c) == Holder(s'.slotLog, c);
    if s'.slotLog != s.slotLog {
      var op := s'.slotLog[|s.slotLog|];
      assert s'.slotLog == s.slotLog + [op];
      OneMoreOp(s.slotLog, op);
    }
  }

  /** Over every history: no run takes a slot twice or is freed twice, no subagent run ever takes one, every start
      command names a run that took the slot of its conversation, and OnRunCleared is called at most once a run. */
  lemma SlotHistory(actions: seq<Action>)
    ensures
      var s := Exec(actions);
      && (forall i, j :: 0 <= i < j < |s.slotLog| && s.slotLog[i].run == s.slotLog[j].run ==>
          s.slotLog[i].Took? && s.slotLog[j].Freed?)
      && (forall op :: op in s.slotLog ==> op.run in s.db.runs && s.db.runs[op.run].kind.Main?)
      && (forall cmd :: cmd in s.commands ==> Took(cmd.conv, cmd.run) in s.slotLog)
      && (forall i, j :: 0 <= i < j < |s.notified| ==> s.notified[i] != s.notified[j])
      && (forall c :: c in s.db.convs ==> s.db.convs[c].active == Holder(s.slotLog, c))
  {
    var s := Exec(actions);
    ExecOk(actions);
    hide Exec, ThreadsOk, FinishedSeen, Legal;
    forall i, j | 0 <= i < j < |s.slotLog| && s.slotLog[i].run == s.slotLog[j].run
      ensures s.slotLog[i].Took? && s.slotLog[j].Freed?
    {
      OncePerRun(s.slotLog, i, j);
    }
  }
}
