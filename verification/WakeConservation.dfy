/** No accepted report is lost: over every history of the protocol it is queued, in the hands of a goroutine
    that is launching a run with it, or in a written start command. */
module WakeConservation {
  import opened WakeQueue
  import opened Store
  import opened Protocol

  /** The batch a goroutine has taken and not yet handed on. */
  function Batch(pc: Pc): seq<Report> {
    match pc
    case TCreate(_, batch) => batch
    case TClaim(_, batch, _) => batch
    case TWrite(_, batch, _) => batch
    case TRestore(_, batch) => batch
    case _ => []
  }

  function BatchConv(pc: Pc): ConvId {
    match pc
    case TCreate(c, _) => c
    case TClaim(c, _, _) => c
    case TWrite(c, _, _) => c
    case TRestore(c, _) => c
    case _ => ""
  }

  predicate InHand(pc: Pc, c: ConvId, id: string) {
    BatchConv(pc) == c && id in Ids(Batch(pc))
  }

  predicate InQueue(s: State, c: ConvId, id: string) {
    id in Ids(Queued(s, c))
  }

  predicate InCommand(cmd: Command, c: ConvId, id: string) {
    cmd.conv == c && id in Ids(cmd.reports)
  }

  ghost predicate Kept(s: State, c: ConvId, id: string) {
    || InQueue(s, c, id)
    || (exists t :: InHand(At(s, t), c, id))
    || (exists cmd :: cmd in s.commands && InCommand(cmd, c, id))
  }

  ghost predicate Conserved(s: State) {
    forall c, id :: (c, id) in s.accepted ==> c in s.db.convs && (Live(s, c) ==> Kept(s, c, id))
  }

  /** A goroutine drops the queue of a conversation only after seeing it deleted, which it then stays. */
  ghost predicate DropsDeleted(s: State) {
    forall t :: match At(s, t)
      case WakeAdd(c, _) => c in s.db.convs
      case TRead(c) => c in s.db.convs
      case TDrop(c) => c in s.db.convs && s.db.convs[c].deleted
      case _ => true
  }

  /** Every batch, wherever it is, has pairwise distinct ids. */
  ghost predicate BatchesDistinct(s: State) {
    && (forall c :: DistinctIds(Queued(s, c)))
    && (forall t :: DistinctIds(Batch(At(s, t))))
    && (forall cmd :: cmd in s.commands ==> DistinctIds(cmd.reports))
  }

  ghost predicate WakeInv(s: State) {
    Conserved(s) && DropsDeleted(s) && BatchesDistinct(s)
  }

  /** Only goroutine t has moved, conversations were not undeleted, and commands were only added. */
  ghost predicate Moved(s: State, s': State, t: Thread) {
    && (forall u :: u != t ==> At(s', u) == At(s, u))
    && (forall c :: c in s.db.convs ==> c in s'.db.convs && (s.db.convs[c].deleted ==> s'.db.convs[c].deleted))
    && s.commands <= s'.commands
  }

  /** What t had, and what was queued, is still somewhere. */
  ghost predicate Hands(s: State, s': State, t: Thread, c: ConvId, id: string) {
    && (InQueue(s, c, id) ==> InQueue(s', c, id) || InHand(At(s', t), c, id))
    && (InHand(At(s, t), c, id) ==> InQueue(s', c, id) || InHand(At(s', t), c, id) || Sent(s', c, id))
  }

  ghost predicate Sent(s': State, c: ConvId, id: string) {
    exists cmd :: cmd in s'.commands && InCommand(cmd, c, id)
  }

  lemma KeptOn(s: State, s': State, t: Thread, c: ConvId, id: string)
    requires Moved(s, s', t) && Kept(s, c, id) && Hands(s, s', t, c, id)
    ensures Kept(s', c, id)
  {
    if InQueue(s, c, id) {
    } else if u :| InHand(At(s, u), c, id) {
      assert u != t ==> InHand(At(s', u), c, id);
    } else {
      var cmd :| cmd in s.commands && InCommand(cmd, c, id);
      assert cmd in s'.commands;
    }
  }

  ghost predicate ThreadFine(s: State, pc: Pc) {
    && DistinctIds(Batch(pc))
    && match pc
       case WakeAdd(c, _) => c in s.db.convs
       case TRead(c) => c in s.db.convs
       case TDrop(c) => c in s.db.convs && s.db.convs[c].deleted
       case _ => true
  }

  /** A step keeps the invariant when it hands on every report of a live conversation, accepts only what it queues,
      and leaves t and the changed batches in order. */
  lemma MoveKeeps(s: State, s': State, t: Thread)
    requires WakeInv(s) && Moved(s, s', t) && ThreadFine(s', At(s', t))
    requires forall c, id :: (c, id) in s.accepted && Live(s', c) ==> Hands(s, s', t, c, id)
    requires forall c, id :: (c, id) in s'.accepted ==>
      (c, id) in s.accepted || (c in s'.db.convs && InQueue(s', c, id))
    requires forall c :: DistinctIds(Queued(s', c))
    requires forall cmd :: cmd in s'.commands ==> cmd in s.commands || DistinctIds(cmd.reports)
    ensures WakeInv(s')
  {
    hide DistinctIds, Kept, Hands, InQueue;
    assert Conserved(s') by {
      forall c, id | (c, id) in s'.accepted ensures c in s'.db.convs && (Live(s', c) ==> Kept(s', c, id)) {
        if (c, id) in s.accepted {
          if Live(s', c) {
            assert Live(s, c);
            KeptOn(s, s', t, c, id);
          }
        } else {
          QueuedIsKept(s', c, id);
        }
      }
    }
  }

  lemma QueuedIsKept(s: State, c: ConvId, id: string)
    requires InQueue(s, c, id)
    ensures Kept(s, c, id)
  {
  }

  lemma EmptyBatch()
    ensures DistinctIds([]) && Ids([]) == {}
  {
  }

  lemma AddKeeps(s: State, t: Thread, o: Outcome, newId: RunId)
    requires WakeInv(s) && At(s, t).WakeAdd?
    ensures WakeInv(AdvanceWakes(s, t, At(s, t), o, newId))
  {
    hide DistinctIds, Ids, Added;
    var c, report := At(s, t).conv, At(s, t).report;
    var s' := AdvanceWakes(s, t, At(s, t), o, newId);
    AddedIds(Queued(s, c), report);
    AddedDistinct(Queued(s, c), report);
    EmptyBatch();
    assert forall d :: Queued(s', d) == if d == c then Added(Queued(s, c), report) else Queued(s, d);
    MoveKeeps(s, s', t);
  }

  /** A step that touches no batch: the queue is as it was and t holds nothing, before or after. */
  lemma QuietKeeps(s: State, s': State, t: Thread)
    requires WakeInv(s) && Moved(s, s', t) && ThreadFine(s', At(s', t))
    requires s'.queue == s.queue && s'.accepted == s.accepted && Batch(At(s, t)) == []
    requires forall cmd :: cmd in s'.commands ==> cmd in s.commands || cmd.reports == []
    ensures WakeInv(s')
  {
    hide DistinctIds, Ids;
    EmptyBatch();
    assert forall c :: Queued(s', c) == Queued(s, c);
    MoveKeeps(s, s', t);
  }

  /** A step in which t keeps its batch, or sends it. */
  lemma HoldKeeps(s: State, s': State, t: Thread)
    requires WakeInv(s) && Moved(s, s', t) && ThreadFine(s', At(s', t))
    requires s'.queue == s.queue && s'.accepted == s.accepted
    requires (BatchConv(At(s', t)) == BatchConv(At(s, t)) && Batch(At(s', t)) == Batch(At(s, t)))
          || exists r :: Command(BatchConv(At(s, t)), r, Batch(At(s, t))) in s'.commands
    requires forall cmd :: cmd in s'.commands ==> cmd in s.commands || cmd.reports == Batch(At(s, t))
    ensures WakeInv(s')
  {
    hide DistinctIds, Ids;
    assert forall c :: Queued(s', c) == Queued(s, c);
    forall c, id | (c, id) in s.accepted && Live(s', c) ensures Hands(s, s', t, c, id) {
      if InHand(At(s, t), c, id) && !InHand(At(s', t), c, id) {
        var r :| Command(BatchConv(At(s, t)), r, Batch(At(s, t))) in s'.commands;
        assert InCommand(Command(c, r, Batch(At(s, t))), c, id);
      }
    }
    MoveKeeps(s, s', t);
  }

  lemma ReadKeeps(s: State, t: Thread, o: Outcome, newId: RunId)
    requires WakeInv(s) && At(s, t).TRead?
    ensures WakeInv(AdvanceWakes(s, t, At(s, t), o, newId))
  {
    hide WakeInv;
    assert At(s, t).conv in s.db.convs by { ReadsKnown(s, t); }
    EmptyBatch();
    QuietKeeps(s, AdvanceWakes(s, t, At(s, t), o, newId), t);
  }

  lemma ReadsKnown(s: State, t: Thread)
    requires WakeInv(s)
    ensures ThreadFine(s, At(s, t))
  {
  }

  /** Dropping a queue loses reports only of a deleted conversation. */
  lemma DropKeeps(s: State, t: Thread, o: Outcome, newId: RunId)
    requires WakeInv(s) && At(s, t).TDrop?
    ensures WakeInv(AdvanceWakes(s, t, At(s, t), o, newId))
  {
    hide DistinctIds, Ids;
    EmptyBatch();
    var c := At(s, t).conv;
    var s' := AdvanceWakes(s, t, At(s, t), o, newId);
    assert forall d :: Queued(s', d) == if d == c then [] else Queued(s, d);
    assert !Live(s', c) by { ReadsKnown(s, t); }
    MoveKeeps(s, s', t);
  }

  lemma TakeKeeps(s: State, t: Thread, o: Outcome, newId: RunId)
    requires WakeInv(s) && At(s, t).TTake?
    ensures WakeInv(AdvanceWakes(s, t, At(s, t), o, newId))
  {
    hide DistinctIds, Ids;
    EmptyBatch();
    var c := At(s, t).conv;
    var s' := AdvanceWakes(s, t, At(s, t), o, newId);
    assert forall d :: Queued(s', d) == if d == c then [] else Queued(s, d);
    assert Queued(s, c) != [] ==> At(s', t) == TCreate(c, Queued(s, c));
    MoveKeeps(s, s', t);
  }

  lemma LaunchKeeps(s: State, t: Thread, o: Outcome, newId: RunId)
    requires WakeInv(s) && (At(s, t).TCreate? || At(s, t).TClaim? || At(s, t).TWrite?)
    ensures WakeInv(AdvanceWakes(s, t, At(s, t), o, newId))
  {
    hide DistinctIds, Ids;
    EmptyBatch();
    ReadsKnown(s, t);
    hide WakeInv;
    var pc := At(s, t);
    var s' := AdvanceWakes(s, t, pc, o, newId);
    if pc.TWrite? && !o.FailsBefore? {
      assert s'.commands == s.commands + [Command(pc.conv, pc.run, pc.batch)];
      assert Command(BatchConv(pc), pc.run, Batch(pc)) in s'.commands;
    }
    HoldKeeps(s, s', t);
  }

  lemma RestoreKeeps(s: State, t: Thread, o: Outcome, newId: RunId)
    requires WakeInv(s) && At(s, t).TRestore?
    ensures WakeInv(AdvanceWakes(s, t, At(s, t), o, newId))
  {
    var c, batch := At(s, t).conv, At(s, t).batch;
    MergedNothing(batch);
    MergedIds(batch, Queued(s, c));
    assert DistinctIds(Batch(At(s, t))) && DistinctIds(Queued(s, c));
    MergedDistinct(batch, Queued(s, c));
    hide DistinctIds, Ids, Merged;
    EmptyBatch();
    var s' := AdvanceWakes(s, t, At(s, t), o, newId);
    assert forall d :: Queued(s', d) == if d == c then Merged(batch, Queued(s, c)) else Queued(s, d);
    MoveKeeps(s, s', t);
  }

  lemma MergedNothing(batch: seq<Report>)
    ensures Merged(batch, []) == batch
  {
  }

  lemma WakesKeep(s: State, t: Thread, o: Outcome, newId: RunId)
    requires WakeInv(s) && InWakes(At(s, t))
    ensures WakeInv(AdvanceWakes(s, t, At(s, t), o, newId))
  {
    hide WakeInv, AdvanceWakes;
    match At(s, t) {
      case WakeAdd(_, _) => AddKeeps(s, t, o, newId);
      case TRead(_) => ReadKeeps(s, t, o, newId);
      case TDrop(_) => DropKeeps(s, t, o, newId);
      case TTake(_) => TakeKeeps(s, t, o, newId);
      case TRestore(_, _) => RestoreKeeps(s, t, o, newId);
      case _ => LaunchKeeps(s, t, o, newId);
    }
  }

  lemma PostKeeps(s: State, t: Thread, o: Outcome, newId: RunId)
    requires WakeInv(s) && InPost(At(s, t))
    ensures WakeInv(AdvancePost(s, t, At(s, t), o, newId))
  {
    hide WakeInv, DistinctIds;
    EmptyBatch();
    QuietKeeps(s, AdvancePost(s, t, At(s, t), o, newId), t);
  }

  lemma PersistKeeps(s: State, t: Thread, o: Outcome)
    requires WakeInv(s) && InPersist(At(s, t))
    ensures WakeInv(AdvancePersist(s, t, At(s, t), o))
  {
    hide WakeInv, DistinctIds, Ids;
    EmptyBatch();
    QuietKeeps(s, AdvancePersist(s, t, At(s, t), o), t);
  }

  lemma StepKeeps(s: State, a: Action)
    requires WakeInv(s)
    ensures WakeInv(Step(s, a))
  {
    hide AdvanceWakes, AdvancePost, AdvancePersist;
    match a {
      case Advance(t, o, newId) =>
        hide WakeInv;
        var pc := At(s, t);
        if InWakes(pc) {
          WakesKeep(s, t, o, newId);
        } else if InPost(pc) {
          PostKeeps(s, t, o, newId);
        } else if InPersist(pc) {
          PersistKeeps(s, t, o);
        }
      case _ => OutsideKeeps(s, a);
    }
  }

  /** Steps from outside: conversations come and go, and idle goroutines are given work. */
  lemma OutsideKeeps(s: State, a: Action)
    requires WakeInv(s) && !a.Advance?
    ensures WakeInv(Step(s, a))
  {
    hide DistinctIds, WakeInv;
    EmptyBatch();
    var s' := Step(s, a);
    if s' != s {
      match a {
        case CreateConversation(c) => RowsKeep(s, s');
        case DeleteConversation(c) => RowsKeep(s, s');
        case ReceiveWake(t, c, report) => QuietKeeps(s, s', t);
        case PostMessage(t, c) => QuietKeeps(s, s', t);
        case Deliver(t, ev) => QuietKeeps(s, s', t);
      }
    }
  }

  lemma RowsKeep(s: State, s': State)
    requires WakeInv(s) && s'.pcs == s.pcs && s'.queue == s.queue && s'.accepted == s.accepted
    requires s'.commands == s.commands
    requires forall c :: c in s.db.convs ==> c in s'.db.convs && (s.db.convs[c].deleted ==> s'.db.convs[c].deleted)
    ensures WakeInv(s')
  {
    hide DistinctIds, Ids;
    assert forall t :: At(s', t) == At(s, t);
    assert forall c :: Queued(s', c) == Queued(s, c);
    forall c, id | (c, id) in s'.accepted && Live(s', c) ensures Kept(s', c, id) {
      assert Kept(s, c, id);
    }
  }

  /** Conservation: after every history, each accepted report of a conversation that is not deleted is in the pending
      batch, in a batch held by an unfinished launch, or in a written start command; and every batch has distinct
      ids. */
  lemma {:induction false} WakesConserved(actions: seq<Action>)
    ensures
      var s := Exec(actions);
      && WakeInv(s)
      && (forall c, id :: (c, id) in s.accepted && Live(s, c) ==>
            || id in Ids(Queued(s, c))
            || (exists t :: BatchConv(At(s, t)) == c && id in Ids(Batch(At(s, t))))
            || (exists cmd :: cmd in s.commands && cmd.conv == c && id in Ids(cmd.reports)))
  {
    if actions != [] {
      WakesConserved(actions[..|actions| - 1]);
      StepKeeps(Exec(actions[..|actions| - 1]), actions[|actions| - 1]);
    }
    var s := Exec(actions);
    assert WakeInv(s);
    forall c, id | (c, id) in s.accepted && Live(s, c)
      ensures
        || id in Ids(Queued(s, c))
        || (exists t :: BatchConv(At(s, t)) == c && id in Ids(Batch(At(s, t))))
        || (exists cmd :: cmd in s.commands && cmd.conv == c && id in Ids(cmd.reports))
    {
      assert Kept(s, c, id);
    }
  }
}
