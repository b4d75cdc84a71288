/** When a wake does launch a run, and a history in which it waits although the slot is free. */
module WakeLaunch {
  import opened Common
  import opened WakeQueue
  import opened Store
  import opened Protocol

  function Go(s: State, t: Thread, newId: RunId): State {
    Step(s, Advance(t, Fine, newId))
  }

  /** The six steps of receiving a wake, from the queue write to the command write, or as many as there are. */
  function Received(s: State, t: Thread, c: ConvId, report: Report, newId: RunId): State {
    var s1 := Step(s, ReceiveWake(t, c, report));
    Go(Go(Go(Go(Go(Go(s1, t, newId), t, newId), t, newId), t, newId), t, newId), t, newId)
  }

  /** A wake nobody interferes with launches one run with everything that waits exactly when the slot is free;
      otherwise the report waits with the rest. */
  lemma WakeLaunches(s: State, t: Thread, c: ConvId, report: Report, newId: RunId)
    requires At(s, t).Idle? && Live(s, c) && newId !in s.db.runs
    ensures
      var s' := Received(s, t, c, report, newId);
      var batch := Added(Queued(s, c), report);
      && At(s', t).Idle? && report in batch
      && if s.db.convs[c].active.None?
         then s'.commands == s.commands + [Command(c, newId, batch)] && Queued(s', c) == [] && Holds(s'.db, c, newId)
         else s'.commands == s.commands && Queued(s', c) == batch && s'.db == s.db
  {
    hide Added;
    AddedIds(Queued(s, c), report);
    var batch := Added(Queued(s, c), report);
    assert batch != [];
    var s0 := Step(s, ReceiveWake(t, c, report));
    var s1 := Go(s0, t, newId);
    assert At(s1, t) == TRead(c) && Queued(s1, c) == batch && s1.db == s.db && s1.commands == s.commands;
    if s.db.convs[c].active.Some? {
      IdleStays(Go(s1, t, newId), t, newId);
    } else {
      Launches(s1, t, c, batch, newId);
    }
  }

  lemma IdleStays(s: State, t: Thread, newId: RunId)
    requires At(s, t).Idle?
    ensures Go(s, t, newId) == s
  {}

  lemma Launches(s: State, t: Thread, c: ConvId, batch: seq<Report>, newId: RunId)
    requires At(s, t) == TRead(c) && Live(s, c) && s.db.convs[c].active.None? && newId !in s.db.runs
    requires batch != [] && Queued(s, c) == batch
    ensures
      var s' := Go(Go(Go(Go(Go(s, t, newId), t, newId), t, newId), t, newId), t, newId);
      && At(s', t).Idle? && s'.commands == s.commands + [Command(c, newId, batch)]
      && Queued(s', c) == [] && Holds(s'.db, c, newId)
  {
    var s1 := Go(s, t, newId);
    assert At(s1, t) == TTake(c) && s1.queue == s.queue && s1.db == s.db;
    var s2 := Go(s1, t, newId);
    assert At(s2, t) == TCreate(c, batch) && Queued(s2, c) == [] && s2.db == s.db;
    Launching(s2, t, c, batch, newId);
  }

  lemma Launching(s: State, t: Thread, c: ConvId, batch: seq<Report>, newId: RunId)
    requires At(s, t) == TCreate(c, batch) && Live(s, c) && s.db.convs[c].active.None? && newId !in s.db.runs
    requires Queued(s, c) == []
    ensures
      var s' := Go(Go(Go(s, t, newId), t, newId), t, newId);
      && At(s', t).Idle? && s'.commands == s.commands + [Command(c, newId, batch)]
      && Queued(s', c) == [] && Holds(s'.db, c, newId)
  {
    var s1 := Go(s, t, newId);
    assert At(s1, t) == TClaim(c, batch, newId) && Claimable(s1.db, c);
    assert s1.queue == s.queue && s1.commands == s.commands;
    var s2 := Go(s1, t, newId);
    assert At(s2, t) == TWrite(c, batch, newId) && Holds(s2.db, c, newId) && s2.queue == s.queue
        && s2.commands == s.commands;
  }

  // A wake that is not launched

  lemma ExecSnoc(history: seq<Action>, a: Action)
    ensures Exec(history + [a]) == Step(Exec(history), a)
  {
    assert (history + [a])[..|history|] == history;
  }

  /** Nobody but goroutines 0 and 1 is at work. */
  ghost predicate OnlyTwo(s: State) {
    forall t :: t > 1 ==> At(s, t).Idle?
  }

  lemma OnlyTwoStays(s: State, a: Action)
    requires OnlyTwo(s) && (a.CreateConversation? || (!a.DeleteConversation? && a.thread <= 1))
    ensures OnlyTwo(Step(s, a))
  {
    forall t | t > 1 ensures At(Step(s, a), t) == At(s, t) {}
  }

  lemma OneMore(history: seq<Action>, a: Action) returns (longer: seq<Action>)
    requires OnlyTwo(Exec(history)) && (a.CreateConversation? || (!a.DeleteConversation? && a.thread <= 1))
    ensures Exec(longer) == Step(Exec(history), a) && OnlyTwo(Exec(longer))
  {
    longer := history + [a];
    ExecSnoc(history, a);
    OnlyTwoStays(Exec(history), a);
  }

  /** Where two goroutines stand, and what the tables say about one conversation. */
  ghost predicate Stage(s: State, pc0: Pc, pc1: Pc, c: ConvId, active: Option<RunId>, queued: seq<Report>,
      runs: map<RunId, RunRow>)
  {
    && At(s, 0) == pc0 && At(s, 1) == pc1
    && c in s.db.convs && s.db.convs[c] == Conv(active, false) && Queued(s, c) == queued && s.db.runs == runs
  }

  function Row(c: ConvId, status: string): RunRow {
    RunRow(c, Main, status, None)
  }

  /** Goroutine 0 has taken the only report and created a run, and is about to claim the free slot. */
  lemma AboutToClaim(c: ConvId, report: Report, r0: RunId) returns (h: seq<Action>)
    ensures OnlyTwo(Exec(h)) && Stage(Exec(h), TClaim(c, [report], r0), Idle, c, None, [], map[r0 := Row(c, QUEUED)])
    ensures Exec(h).db.journal == map[]
  {
    h := [];
    h := OneMore(h, CreateConversation(c));
    h := OneMore(h, ReceiveWake(0, c, report));
    assert Stage(Exec(h), WakeAdd(c, report), Idle, c, None, [], map[]);
    h := Takes(h, c, report, r0);
  }

  lemma Takes(h: seq<Action>, c: ConvId, report: Report, r0: RunId) returns (h': seq<Action>)
    requires OnlyTwo(Exec(h)) && Stage(Exec(h), WakeAdd(c, report), Idle, c, None, [], map[])
    ensures OnlyTwo(Exec(h')) && Stage(Exec(h'), TClaim(c, [report], r0), Idle, c, None, [], map[r0 := Row(c, QUEUED)])
    ensures Exec(h').db.journal == Exec(h).db.journal
  {
    hide Exec, OnlyTwo, AdvancePost, AdvancePersist;
    h' := OneMore(h, Advance(0, Fine, r0));
    assert Added([], report) == [report];
    assert Stage(Exec(h'), TRead(c), Idle, c, None, [report], map[]);
    h' := OneMore(h', Advance(0, Fine, r0));
    assert Stage(Exec(h'), TTake(c), Idle, c, None, [report], map[]);
    h' := OneMore(h', Advance(0, Fine, r0));
    assert Stage(Exec(h'), TCreate(c, [report]), Idle, c, None, [], map[]);
    h' := OneMore(h', Advance(0, Fine, r0));
  }

  /** Goroutine 1 posts a message, whose run takes the slot. */
  lemma Posted(h: seq<Action>, pc0: Pc, c: ConvId, r0: RunId, r1: RunId) returns (h': seq<Action>)
    requires OnlyTwo(Exec(h)) && r0 != r1 && Stage(Exec(h), pc0, Idle, c, None, [], map[r0 := Row(c, QUEUED)])
    ensures OnlyTwo(Exec(h')) && Stage(Exec(h'), pc0, Idle, c, Some(r1), [],
        map[r0 := Row(c, QUEUED), r1 := Row(c, QUEUED)])
    ensures Exec(h').db.journal == Exec(h).db.journal
  {
    hide Exec, OnlyTwo, AdvanceWakes, AdvancePersist;
    h' := OneMore(h, PostMessage(1, c));
    assert Stage(Exec(h'), pc0, UCreate(c), c, None, [], map[r0 := Row(c, QUEUED)]);
    h' := OneMore(h', Advance(1, Fine, r1));
    var runs := map[r0 := Row(c, QUEUED), r1 := Row(c, QUEUED)];
    assert Stage(Exec(h'), pc0, UClaim(c, r1), c, None, [], runs);
    h' := Written(h', pc0, c, r1, runs);
  }

  lemma Written(h: seq<Action>, pc0: Pc, c: ConvId, r1: RunId, runs: map<RunId, RunRow>) returns (h': seq<Action>)
    requires OnlyTwo(Exec(h)) && Stage(Exec(h), pc0, UClaim(c, r1), c, None, [], runs)
    ensures OnlyTwo(Exec(h')) && Stage(Exec(h'), pc0, Idle, c, Some(r1), [], runs)
    ensures Exec(h').db.journal == Exec(h).db.journal
  {
    hide Exec, OnlyTwo, AdvanceWakes, AdvancePersist;
    h' := OneMore(h, Advance(1, Fine, r1));
    assert Stage(Exec(h'), pc0, UMessage(c, r1), c, Some(r1), [], runs);
    h' := OneMore(h', Advance(1, Fine, r1));
    assert Stage(Exec(h'), pc0, UWrite(c, r1), c, Some(r1), [], runs);
    h' := OneMore(h', Advance(1, Fine, r1));
  }

  /** Goroutine 1 persists the end of that run, up to the clearing of the slot. */
  lemma Finishing(h: seq<Action>, pc0: Pc, c: ConvId, r0: RunId, r1: RunId) returns (h': seq<Action>, ev: Event)
    requires OnlyTwo(Exec(h)) && r0 != r1 && r1 != "" && Stage(Exec(h), pc0, Idle, c, Some(r1), [],
        map[r0 := Row(c, QUEUED), r1 := Row(c, QUEUED)])
    requires Exec(h).db.journal == map[]
    ensures ev == Event(r1, 1, Finished("succeeded"))
    ensures OnlyTwo(Exec(h')) && Stage(Exec(h'), pc0, PClear(ev, Row(c, QUEUED)), c, Some(r1), [],
        map[r0 := Row(c, QUEUED), r1 := Row(c, "succeeded")])
  {
    hide Exec, OnlyTwo, AdvanceWakes, AdvancePost;
    ev := Event(r1, 1, Finished("succeeded"));
    var row, runs := Row(c, QUEUED), map[r0 := Row(c, QUEUED), r1 := Row(c, QUEUED)];
    h' := OneMore(h, Deliver(1, ev));
    assert Stage(Exec(h'), pc0, PInsert(ev, row), c, Some(r1), [], runs) && Exec(h').db.journal == map[];
    h' := OneMore(h', Advance(1, Fine, r1));
    assert Stage(Exec(h'), pc0, PSubagent(ev, row, true), c, Some(r1), [], runs);
    h' := Applied(h', pc0, c, r0, r1, ev);
  }

  lemma Applied(h: seq<Action>, pc0: Pc, c: ConvId, r0: RunId, r1: RunId, ev: Event) returns (h': seq<Action>)
    requires r0 != r1 && ev == Event(r1, 1, Finished("succeeded")) && OnlyTwo(Exec(h))
    requires Stage(Exec(h), pc0, PSubagent(ev, Row(c, QUEUED), true), c, Some(r1), [],
        map[r0 := Row(c, QUEUED), r1 := Row(c, QUEUED)])
    ensures OnlyTwo(Exec(h')) && Stage(Exec(h'), pc0, PClear(ev, Row(c, QUEUED)), c, Some(r1), [],
        map[r0 := Row(c, QUEUED), r1 := Row(c, "succeeded")])
  {
    hide Exec, OnlyTwo, AdvanceWakes, AdvancePost;
    var row, runs := Row(c, QUEUED), map[r0 := Row(c, QUEUED), r1 := Row(c, QUEUED)];
    h' := OneMore(h, Advance(1, Fine, r1));
    assert Stage(Exec(h'), pc0, PAnswer(ev, row), c, Some(r1), [], runs);
    h' := Saved(h', pc0, c, r1, ev, runs);
    assert runs[r1 := Row(c, "succeeded")] == map[r0 := Row(c, QUEUED), r1 := Row(c, "succeeded")];
  }

  lemma Saved(h: seq<Action>, pc0: Pc, c: ConvId, r1: RunId, ev: Event, runs: map<RunId, RunRow>)
      returns (h': seq<Action>)
    requires ev == Event(r1, 1, Finished("succeeded")) && OnlyTwo(Exec(h))
    requires Stage(Exec(h), pc0, PAnswer(ev, Row(c, QUEUED)), c, Some(r1), [], runs)
    ensures OnlyTwo(Exec(h')) && Stage(Exec(h'), pc0, PClear(ev, Row(c, QUEUED)), c, Some(r1), [],
        runs[r1 := Row(c, "succeeded")])
  {
    hide Exec, OnlyTwo, AdvanceWakes, AdvancePost;
    h' := OneMore(h, Advance(1, Fine, r1));
    assert Stage(Exec(h'), pc0, PSave(ev, Row(c, QUEUED)), c, Some(r1), [], runs);
    h' := OneMore(h', Advance(1, Fine, r1));
  }

  /** The claim fails, the slot is cleared and the callback finds an empty queue, and only then is the batch
      restored. */
  lemma Missed(h: seq<Action>, c: ConvId, report: Report, r0: RunId, ev: Event, row: RunRow, runs: map<RunId, RunRow>)
    returns (h': seq<Action>)
    requires OnlyTwo(Exec(h)) && Stage(Exec(h), TClaim(c, [report], r0), PClear(ev, row), c, Some(ev.run), [], runs)
        && row.conv == c
    ensures OnlyTwo(Exec(h')) && Stage(Exec(h'), Idle, Idle, c, None, [report], runs)
  {
    hide Exec, OnlyTwo;
    h' := OneMore(h, Advance(0, Fine, r0));
    assert Stage(Exec(h'), TRestore(c, [report]), PClear(ev, row), c, Some(ev.run), [], runs);
    h' := OneMore(h', Advance(1, Fine, r0));
    h' := TooLate(h', c, report, r0, runs);
  }

  lemma TooLate(h: seq<Action>, c: ConvId, report: Report, r0: RunId, runs: map<RunId, RunRow>)
      returns (h': seq<Action>)
    requires OnlyTwo(Exec(h)) && Stage(Exec(h), TRestore(c, [report]), PNotify(c), c, None, [], runs)
    ensures OnlyTwo(Exec(h')) && Stage(Exec(h'), Idle, Idle, c, None, [report], runs)
  {
    hide Exec, OnlyTwo, AdvancePost;
    h' := OneMore(h, Advance(1, Fine, r0));
    assert Stage(Exec(h'), TRestore(c, [report]), TRead(c), c, None, [], runs);
    h' := OneMore(h', Advance(1, Fine, r0));
    assert Stage(Exec(h'), TRestore(c, [report]), TTake(c), c, None, [], runs);
    h' := OneMore(h', Advance(1, Fine, r0));
    assert Stage(Exec(h'), TRestore(c, [report]), Idle, c, None, [], runs);
    h' := OneMore(h', Advance(0, Fine, r0));
    assert Merged([report], []) == [report];
  }

  lemma AllIdle(s: State)
    requires OnlyTwo(s) && At(s, 0).Idle? && At(s, 1).Idle?
    ensures forall t :: At(s, t).Idle?
  {}

  /** Not every pending wake is launched: there is a history after which a report waits, the slot of its
      conversation is free, and nothing is going on. */
  lemma WakeCanStrand(c: ConvId, report: Report, r0: RunId, r1: RunId)
    requires r0 != r1
    ensures exists h: seq<Action> ::
      && Live(Exec(h), c) && Exec(h).db.convs[c].active.None? && Queued(Exec(h), c) == [report]
      && forall t :: At(Exec(h), t).Idle?
    decreases r1 == ""
  {
    hide Exec, OnlyTwo;
    if r1 == "" {
      WakeCanStrand(c, report, r1, r0);
      return;
    }
    var h := AboutToClaim(c, report, r0);
    h := Posted(h, TClaim(c, [report], r0), c, r0, r1);
    var ev;
    h, ev := Finishing(h, TClaim(c, [report], r0), c, r0, r1);
    h := Missed(h, c, report, r0, ev, Row(c, QUEUED), map[r0 := Row(c, QUEUED), r1 := Row(c, "succeeded")]);
    AllIdle(Exec(h));
    assert Live(Exec(h), c) && Queued(Exec(h), c) == [report] && forall t :: At(Exec(h), t).Idle?;
  }
}
