/** The persist consumer: each event is applied to the database once, however often it is delivered. */
module Persist {
  import opened Common
  import opened Store

  /** The database connection: every method is one SQL statement. */
  class Repo {
    var convs: map<ConvId, Conv>
    var runs: map<RunId, RunRow>
    var journal: map<Key, Event>
    var answers: map<RunId, string>

    constructor (db: Db)
      ensures Value() == db
    {
      convs, runs, journal, answers := db.convs, db.runs, db.journal, db.answers;
    }

    function Value(): Db
      reads this
    {
      Db(convs, runs, journal, answers)
    }

    method InsertEvent(ev: Event) returns (inserted: bool)
      modifies this`journal
      ensures Value() == Store.InsertEvent(old(Value()), ev)
      ensures inserted <==> KeyOf(ev) !in old(journal)
    {
      inserted := KeyOf(ev) !in journal;
      if inserted {
        journal := journal[KeyOf(ev) := ev];
      }
    }

    method CreateSubagentRun(conv: ConvId, child: Child)
      modifies this`runs
      ensures runs == if ChildExists(old(Value()), conv, child) then old(runs)
                      else old(runs)[child.run := RunRow(conv, Subagent, QUEUED, Some(child.subagent))]
    {
      if !ChildExists(Value(), conv, child) {
        runs := runs[child.run := RunRow(conv, Subagent, QUEUED, Some(child.subagent))];
      }
    }

    method InsertAssistant(run: RunId, content: string)
      modifies this`answers
      ensures answers == if run in old(answers) then old(answers) else old(answers)[run := content]
    {
      if run !in answers {
        answers := answers[run := content];
      }
    }

    method SaveRun(run: RunId, row: RunRow)
      modifies this`runs
      ensures runs == old(runs)[run := row]
    {
      runs := runs[run := row];
    }

    method ClearActiveRun(conv: ConvId, run: RunId) returns (cleared: bool)
      modifies this`convs
      ensures Value() == Clear(old(Value()), conv, run)
      ensures cleared <==> Holds(old(Value()), conv, run)
    {
      cleared := conv in convs && convs[conv].active == Some(run);
      if cleared {
        convs := convs[conv := convs[conv].(active := None)];
      }
    }
  }

  /** The database, and the conversations OnRunCleared was called for. */
  datatype World = World(db: Db, cleared: seq<ConvId>)

  /** An event that names no known run, or has no positive number, is ignored. */
  predicate Applies(db: Db, ev: Event) {
    ev.run != "" && ev.number > 0 && ev.run in db.runs
  }

  predicate Inserted(db: Db, ev: Event) {
    KeyOf(ev) in db.journal
  }

  /** The statements of one Handle, up to the stage at which it fails; six stages are the whole of it.
      The slot is cleared in the fifth and the callback made in the sixth. */
  function HandledUpTo(w: World, ev: Event, stage: nat): World {
    if !Applies(w.db, ev) then w
    else
      var row := w.db.runs[ev.run];
      var d1 := if stage >= 1 then InsertEvent(w.db, ev) else w.db;
      var d2 := if stage >= 2 then EnsureSubagentRun(d1, row.conv, ev) else d1;
      if Inserted(w.db, ev) then w.(db := d2)
      else
        var d3 := if stage >= 3 then InsertAnswer(d2, row, ev) else d2;
        var d4 := if stage >= 4 then SaveRun(d3, row, ev) else d3;
        if stage >= 5 && ev.payload.Finished? && Holds(d4, row.conv, ev.run) then
          World(Clear(d4, row.conv, ev.run), if stage >= 6 then w.cleared + [row.conv] else w.cleared)
        else w.(db := d4)
  }

  function Handled(w: World, ev: Event): World {
    HandledUpTo(w, ev, 6)
  }

  class Persist {
    const repo: Repo
    var cleared: seq<ConvId>

    constructor (repo: Repo)
      ensures this.repo == repo && cleared == []
    {
      this.repo, cleared := repo, [];
    }

    function Value(): World
      reads this, repo
    {
      World(repo.Value(), cleared)
    }

    method Handle(ev: Event)
      modifies this`cleared, repo
      ensures Value() == Handled(old(Value()), ev)
    {
      if ev.run == "" || ev.number <= 0 || ev.run !in repo.runs {
        return;
      }
      var row := repo.runs[ev.run];
      var inserted := repo.InsertEvent(ev);
      if ev.payload.SubagentStarted? {
        var child := ChildIn(ev.payload);
        if child.Some? {
          repo.CreateSubagentRun(row.conv, child.value);
        }
      }
      if !inserted {
        return;
      }
      var status, clear := row.status, false;
      match ev.payload {
        case RunStarted =>
          if status == QUEUED {
            status := RUNNING;
          }
        case Completed(content) =>
          if row.kind.Main? {
            repo.InsertAssistant(ev.run, content);
          }
        case Finished(st) =>
          status := if st == "" then FAILED else st;
          clear := true;
        case _ =>
      }
      repo.SaveRun(ev.run, row.(status := status));
      if clear {
        var done := repo.ClearActiveRun(row.conv, ev.run);
        if done {
          cleared := cleared + [row.conv];
        }
      }
    }
  }

  function HandleAll(w: World, evs: seq<Event>): World {
    if evs == [] then w else Handled(HandleAll(w, evs[..|evs| - 1]), evs[|evs| - 1])
  }

  // At-least-once delivery refines exactly-once

  /** Journal entries are under their own keys, and the children they started exist, as far as they can. */
  ghost predicate Settled(db: Db) {
    forall k :: k in db.journal ==>
      && KeyOf(db.journal[k]) == k
      && db.journal[k].run in db.runs
      && (ChildIn(db.journal[k].payload).Some? ==>
            ChildExists(db, db.runs[db.journal[k].run].conv, ChildIn(db.journal[k].payload).value))
  }

  /** Rows are only added, and a run keeps its conversation, kind and subagent id. */
  ghost predicate RunsKept(db: Db, db': Db) {
    forall r :: r in db.runs ==> r in db'.runs && db'.runs[r].(status := "") == db.runs[r].(status := "")
  }

  lemma ChildStays(db: Db, db': Db, conv: ConvId, child: Child)
    requires RunsKept(db, db') && ChildExists(db, conv, child)
    ensures ChildExists(db', conv, child)
  {
    if child.run !in db.runs {
      var r :| r in db.runs && db.runs[r].conv == conv && db.runs[r].subagent == Some(child.subagent);
      assert db'.runs[r].(status := "") == db.runs[r].(status := "");
      assert db'.runs[r].conv == conv && db'.runs[r].subagent == Some(child.subagent);
    }
  }

  lemma HandledKeepsRun(w: World, ev: Event, r: RunId)
    requires r in w.db.runs
    ensures r in Handled(w, ev).db.runs && Handled(w, ev).db.runs[r].(status := "") == w.db.runs[r].(status := "")
  {
  }

  lemma HandledKeepsRuns(w: World, ev: Event)
    ensures RunsKept(w.db, Handled(w, ev).db)
  {
    hide Handled;
    forall r | r in w.db.runs ensures r in Handled(w, ev).db.runs
      && Handled(w, ev).db.runs[r].(status := "") == w.db.runs[r].(status := "") {
      HandledKeepsRun(w, ev, r);
    }
  }

  lemma HandledSettles(w: World, ev: Event)
    requires Settled(w.db)
    ensures Settled(Handled(w, ev).db)
  {
    var db' := Handled(w, ev).db;
    HandledKeepsRuns(w, ev);
    forall k | k in db'.journal
      ensures KeyOf(db'.journal[k]) == k && db'.journal[k].run in db'.runs
      ensures ChildIn(db'.journal[k].payload).Some? ==>
        ChildExists(db', db'.runs[db'.journal[k].run].conv, ChildIn(db'.journal[k].payload).value)
    {
      var e := db'.journal[k];
      if k in w.db.journal {
        assert e == w.db.journal[k];
        assert db'.runs[e.run].(status := "") == w.db.runs[e.run].(status := "");
        if ChildIn(e.payload).Some? {
          ChildStays(w.db, db', w.db.runs[e.run].conv, ChildIn(e.payload).value);
        }
      } else {
        assert e == ev && Applies(w.db, ev);
      }
    }
  }

  /** A delivery whose number is in the journal changes nothing, unless it announces a child that does not exist. */
  lemma RedeliveryEffect(w: World, ev: Event)
    requires Inserted(w.db, ev)
    ensures Handled(w, ev) == w <==>
      !(Applies(w.db, ev) && ChildIn(ev.payload).Some?
        && !ChildExists(w.db, w.db.runs[ev.run].conv, ChildIn(ev.payload).value))
  {
    if Applies(w.db, ev) && ChildIn(ev.payload).Some? {
      var child := ChildIn(ev.payload).value;
      assert !ChildExists(w.db, w.db.runs[ev.run].conv, child) ==> child.run !in w.db.runs;
    }
  }

  /** A handler that failed after its insert leaves a redelivery something to do: the child run it did not create. */
  lemma RedeliveryCreatesChild()
    ensures
      var parent := RunRow("c", Main, RUNNING, None);
      var ev := Event("p", 1, SubagentStarted("r", "sub", ""));
      var w := World(Db(map[], map["p" := parent], map[("p", 1) := ev], map[]), []);
      "r" !in w.db.runs && "r" in Handled(w, ev).db.runs
  {
    var ev := Event("p", 1, SubagentStarted("r", "sub", ""));
    assert ChildIn(ev.payload) == Some(Child("r", "sub"));
    var parent := RunRow("c", Main, RUNNING, None);
    var db := Db(map[], map["p" := parent], map[("p", 1) := ev], map[]);
    assert !ChildExists(db, "c", Child("r", "sub"));
  }

  /** A subagent.started delivered under a number already in the journal is that event again. */
  predicate IdenticalRedeliveries(w: World, evs: seq<Event>) {
    evs == [] ||
    var front, last := evs[..|evs| - 1], evs[|evs| - 1];
    IdenticalRedeliveries(w, front)
    && (Inserted(HandleAll(w, front).db, last) && last.payload.SubagentStarted? ==>
        HandleAll(w, front).db.journal[KeyOf(last)] == last)
  }

  /** The deliveries without those of events already in the journal. */
  function WithoutRedeliveries(w: World, evs: seq<Event>): seq<Event> {
    if evs == [] then []
    else
      var front, last := evs[..|evs| - 1], evs[|evs| - 1];
      if Inserted(HandleAll(w, front).db, last) then WithoutRedeliveries(w, front)
      else WithoutRedeliveries(w, front) + [last]
  }

  /** Whatever is delivered again, and however often, the database and the callbacks are those of exactly-once
      delivery. */
  lemma {:induction false} AtLeastOnceIsExactlyOnce(w: World, evs: seq<Event>)
    requires Settled(w.db) && IdenticalRedeliveries(w, evs)
    ensures HandleAll(w, evs) == HandleAll(w, WithoutRedeliveries(w, evs))
    ensures Settled(HandleAll(w, evs).db)
  {
    if evs != [] {
      var front, last := evs[..|evs| - 1], evs[|evs| - 1];
      AtLeastOnceIsExactlyOnce(w, front);
      HandledSettles(HandleAll(w, front), last);
      if Inserted(HandleAll(w, front).db, last) {
        RedeliveryEffect(HandleAll(w, front), last);
      } else {
        var once := WithoutRedeliveries(w, front);
        assert (once + [last])[..|once + [last]| - 1] == once;
      }
    }
  }

  // What the exactly-once effects are

  function AnswerOf(db: Db, r: RunId): Option<string> {
    if r in db.answers then Some(db.answers[r]) else None
  }

  function FirstCompletion(evs: seq<Event>, r: RunId): Option<string> {
    if evs == [] then None
    else
      var before, last := FirstCompletion(evs[..|evs| - 1], r), evs[|evs| - 1];
      if before.Some? then before
      else if last.run == r && last.number > 0 && last.payload.Completed? then Some(last.payload.content)
      else None
  }

  /** A main run has one assistant message at most: the content of its first completion to reach the journal.
      A subagent run has none. */
  lemma {:induction false} AnswerIsFirstCompletion(w: World, evs: seq<Event>, r: RunId)
    requires r != "" && r in w.db.runs && AnswerOf(w.db, r).None?
    ensures RunsKept(w.db, HandleAll(w, evs).db)
    ensures AnswerOf(HandleAll(w, evs).db, r)
         == if w.db.runs[r].kind.Main? then FirstCompletion(WithoutRedeliveries(w, evs), r) else None
  {
    if evs != [] {
      var front, last := evs[..|evs| - 1], evs[|evs| - 1];
      var before := HandleAll(w, front);
      AnswerIsFirstCompletion(w, front, r);
      HandledKeepsRuns(before, last);
      assert before.db.runs[r].(status := "") == w.db.runs[r].(status := "");
      HandledAnswer(before, last, r);
      if !Inserted(before.db, last) {
        var once := WithoutRedeliveries(w, front);
        assert (once + [last])[..|once + [last]| - 1] == once;
      }
    }
  }

  lemma HandledAnswer(w: World, ev: Event, r: RunId)
    requires r != "" && r in w.db.runs
    ensures AnswerOf(Handled(w, ev).db, r)
         == if AnswerOf(w.db, r).None? && !Inserted(w.db, ev) && ev.run == r && ev.number > 0
             && ev.payload.Completed? && w.db.runs[r].kind.Main?
            then Some(ev.payload.content) else AnswerOf(w.db, r)
  {
  }

  function Rank(status: string): nat {
    if status == QUEUED then 0 else if status == RUNNING then 1 else 2
  }

  /** A run's status goes from queued to running to final, and back only by a run.finished that claims an earlier
      status. */
  lemma StatusGoesForward(w: World, ev: Event, r: RunId)
    requires r in w.db.runs
    ensures r in Handled(w, ev).db.runs
    ensures Rank(Handled(w, ev).db.runs[r].status) < Rank(w.db.runs[r].status) <==>
      && r == ev.run && Applies(w.db, ev) && !Inserted(w.db, ev)
      && ev.payload.Finished? && ev.payload.status != "" && Rank(ev.payload.status) < Rank(w.db.runs[r].status)
  {
    assert Rank(FAILED) == 2;
  }

  /** An end event that claims a status that is not final would take a finished run back. */
  lemma StatusCanGoBack()
    ensures
      var row := RunRow("c", Main, "succeeded", None);
      var w := World(Db(map[], map["r" := row], map[], map[]), []);
      Handled(w, Event("r", 1, Finished(RUNNING))).db.runs["r"].status == RUNNING
  {}

  /** The status its events, in order, give a run. */
  function StatusAfter(status: string, evs: seq<Event>, r: RunId): string {
    if evs == [] then status
    else
      var before, last := StatusAfter(status, evs[..|evs| - 1], r), evs[|evs| - 1];
      if last.run == r && last.number > 0 then NextStatus(before, last.payload) else before
  }

  lemma HandledStatus(w: World, ev: Event, r: RunId)
    requires r != "" && r in w.db.runs
    ensures r in Handled(w, ev).db.runs
    ensures Handled(w, ev).db.runs[r].status
         == if !Inserted(w.db, ev) && ev.run == r && ev.number > 0 then NextStatus(w.db.runs[r].status, ev.payload)
            else w.db.runs[r].status
  {}

  /** After any delivery sequence a run has the status its events give it, each counted once. */
  lemma {:induction false} StatusIsOfEventsOnce(w: World, evs: seq<Event>, r: RunId)
    requires r != "" && r in w.db.runs
    ensures r in HandleAll(w, evs).db.runs
    ensures HandleAll(w, evs).db.runs[r].status
         == StatusAfter(w.db.runs[r].status, WithoutRedeliveries(w, evs), r)
  {
    if evs != [] {
      hide Handled, Inserted;
      var front, last := evs[..|evs| - 1], evs[|evs| - 1];
      StatusIsOfEventsOnce(w, front, r);
      HandledStatus(HandleAll(w, front), last, r);
      if !Inserted(HandleAll(w, front).db, last) {
        var once := WithoutRedeliveries(w, front);
        assert (once + [last])[..|once + [last]| - 1] == once;
      }
    }
  }

  predicate Concerns(ev: Event, r: RunId) {
    ev.run == r && ev.number > 0
  }

  predicate IsEndOf(ev: Event, r: RunId) {
    Concerns(ev, r) && ev.payload.Finished?
  }

  predicate IsStartOf(ev: Event, r: RunId) {
    Concerns(ev, r) && ev.payload.RunStarted?
  }

  /** What the last end event of the run claims: "failed" when it is empty. */
  function LastClaim(evs: seq<Event>, r: RunId): Option<string> {
    if evs == [] then None
    else if IsEndOf(evs[|evs| - 1], r) then
      Some(if evs[|evs| - 1].payload.status == "" then "failed" else evs[|evs| - 1].payload.status)
    else LastClaim(evs[..|evs| - 1], r)
  }

  /** The run was started, and has not ended since. */
  predicate StartedSinceEnd(evs: seq<Event>, r: RunId) {
    evs != [] && !IsEndOf(evs[|evs| - 1], r)
    && (IsStartOf(evs[|evs| - 1], r) || StartedSinceEnd(evs[..|evs| - 1], r))
  }

  lemma {:induction false} StatusAfterExactly(status: string, evs: seq<Event>, r: RunId)
    ensures
      var base := if LastClaim(evs, r).Some? then LastClaim(evs, r).value else status;
      StatusAfter(status, evs, r) == if base == "queued" && StartedSinceEnd(evs, r) then "running" else base
  {
    if evs != [] {
      StatusAfterExactly(status, evs[..|evs| - 1], r);
    }
  }

  /** The status of a run, in plain words: what its last end event claims, or else what it was; and a queued run that
      has been started since is running. */
  lemma StatusExactly(w: World, evs: seq<Event>, r: RunId)
    requires r != "" && r in w.db.runs
    ensures r in HandleAll(w, evs).db.runs
    ensures
      var once := WithoutRedeliveries(w, evs);
      var base := if LastClaim(once, r).Some? then LastClaim(once, r).value else w.db.runs[r].status;
      HandleAll(w, evs).db.runs[r].status
      == if base == "queued" && StartedSinceEnd(once, r) then "running" else base
  {
    StatusIsOfEventsOnce(w, evs, r);
    StatusAfterExactly(w.db.runs[r].status, WithoutRedeliveries(w, evs), r);
  }

  lemma {:induction false} NoEndNoClaim(evs: seq<Event>, r: RunId)
    requires forall ev :: ev in evs ==> !IsEndOf(ev, r)
    ensures LastClaim(evs, r).None?
    ensures StartedSinceEnd(evs, r) <==> exists ev :: ev in evs && IsStartOf(ev, r)
  {
    if evs != [] {
      var front, last := evs[..|evs| - 1], evs[|evs| - 1];
      NoEndNoClaim(front, r);
      assert evs == front + [last] && last in evs;
      if StartedSinceEnd(front, r) {
        var ev :| ev in front && IsStartOf(ev, r);
        assert ev in evs;
      }
    }
  }

  lemma {:induction false} LastEndClaims(before: seq<Event>, end: Event, after: seq<Event>, r: RunId)
    requires IsEndOf(end, r) && forall ev :: ev in after ==> !IsEndOf(ev, r)
    ensures LastClaim(before + [end] + after, r) ==
            Some(if end.payload.status == "" then "failed" else end.payload.status)
    decreases |after|
  {
    var all := before + [end] + after;
    if after != [] {
      assert all[..|all| - 1] == before + [end] + after[..|after| - 1];
      assert all[|all| - 1] == after[|after| - 1] && after[|after| - 1] in after;
      LastEndClaims(before, end, after[..|after| - 1], r);
    }
  }

  /** Without an end event: a queued run that was started is running, and no other run changes its status. */
  lemma StartTakesQueuedToRunning(w: World, evs: seq<Event>, r: RunId)
    requires r != "" && r in w.db.runs && forall ev :: ev in WithoutRedeliveries(w, evs) ==> !IsEndOf(ev, r)
    ensures r in HandleAll(w, evs).db.runs
    ensures HandleAll(w, evs).db.runs[r].status
         == if w.db.runs[r].status == "queued" && exists ev :: ev in WithoutRedeliveries(w, evs) && IsStartOf(ev, r)
            then "running" else w.db.runs[r].status
  {
    StatusExactly(w, evs, r);
    NoEndNoClaim(WithoutRedeliveries(w, evs), r);
  }

  /** With one: the status is what the last one claims, or "failed" when it claims none. */
  lemma LastEndDecides(w: World, evs: seq<Event>, r: RunId, before: seq<Event>, end: Event, after: seq<Event>)
    requires r != "" && r in w.db.runs && WithoutRedeliveries(w, evs) == before + [end] + after
    requires IsEndOf(end, r) && end.payload.status != "queued" && forall ev :: ev in after ==> !IsEndOf(ev, r)
    ensures r in HandleAll(w, evs).db.runs
    ensures HandleAll(w, evs).db.runs[r].status == if end.payload.status == "" then "failed" else end.payload.status
  {
    StatusExactly(w, evs, r);
    LastEndClaims(before, end, after, r);
  }

  // What else the events leave behind

  /** The first delivery under a key that names a known run. */
  function FirstUnder(w: World, evs: seq<Event>, k: Key): Option<Event> {
    if evs == [] then None
    else
      var front, last := evs[..|evs| - 1], evs[|evs| - 1];
      if FirstUnder(w, front, k).Some? then FirstUnder(w, front, k)
      else if KeyOf(last) == k && last.run != "" && last.number > 0 && last.run in HandleAll(w, front).db.runs
      then Some(last) else None
  }

  /** The journal keeps what it has, and of what is delivered the first under each key. */
  lemma {:induction false} JournalKeepsFirst(w: World, evs: seq<Event>, k: Key)
    ensures
      var journal := HandleAll(w, evs).db.journal;
      if k in w.db.journal then k in journal && journal[k] == w.db.journal[k]
      else match FirstUnder(w, evs, k)
           case Some(ev) => k in journal && journal[k] == ev
           case None => k !in journal
  {
    if evs != [] {
      JournalKeepsFirst(w, evs[..|evs| - 1], k);
      HandledJournal(HandleAll(w, evs[..|evs| - 1]), evs[|evs| - 1]);
      hide Handled;
    }
  }

  lemma HandledJournal(w: World, ev: Event)
    ensures Handled(w, ev).db.journal
         == if ev.run != "" && ev.number > 0 && ev.run in w.db.runs && (ev.run, ev.number) !in w.db.journal
            then w.db.journal[(ev.run, ev.number) := ev] else w.db.journal
  {}

  /** This event, of a known run, announces this child. */
  predicate Announces(w: World, ev: Event, r: RunId) {
    ev.payload.SubagentStarted? && ev.payload.childRun == r && ev.run in w.db.runs
  }

  /** A run row that comes up is a queued subagent run, announced by a run of its conversation under its subagent id. */
  lemma NewRunIsChild(w: World, ev: Event, r: RunId)
    requires r !in w.db.runs && r in Handled(w, ev).db.runs
    ensures Announces(w, ev, r) && 0 < |r| <= 40
    ensures 0 < |ev.payload.subagent| <= 64 && |ev.payload.parentSubagent| <= 64
    ensures Handled(w, ev).db.runs[r]
         == RunRow(w.db.runs[ev.run].conv, Subagent, "queued", Some(ev.payload.subagent))
  {}

  /** And a well-formed announcement by a known run has its row afterwards, unless an id was taken. */
  lemma AnnouncedChildExists(w: World, ev: Event)
    requires ev.run != "" && ev.number > 0 && ev.run in w.db.runs && ev.payload.SubagentStarted?
    requires 0 < |ev.payload.childRun| <= 40 && 0 < |ev.payload.subagent| <= 64 && |ev.payload.parentSubagent| <= 64
    requires ev.payload.childRun !in w.db.runs
    requires forall r :: r in w.db.runs ==>
      !(w.db.runs[r].conv == w.db.runs[ev.run].conv && w.db.runs[r].subagent == Some(ev.payload.subagent))
    ensures ev.payload.childRun in Handled(w, ev).db.runs
  {}

  /** The end events of the run claim a final status, or none. */
  predicate ClaimsFinal(evs: seq<Event>, r: RunId) {
    forall ev :: ev in evs && ev.run == r && ev.payload.Finished? ==>
      ev.payload.status == "" || Terminal(ev.payload.status)
  }

  lemma NextRank(status: string, payload: Payload)
    requires payload.Finished? ==> payload.status == "" || Terminal(payload.status)
    ensures Rank(status) <= Rank(NextStatus(status, payload))
  {}

  /** When every end event of the run that reaches the journal claims a final status or none, the status never goes
      back, between any two points of any delivery sequence. */
  lemma {:induction false} StatusNeverFalls(w: World, evs: seq<Event>, r: RunId, i: nat, j: nat)
    requires r != "" && r in w.db.runs && ClaimsFinal(WithoutRedeliveries(w, evs), r) && i <= j <= |evs|
    ensures r in HandleAll(w, evs[..i]).db.runs && r in HandleAll(w, evs[..j]).db.runs
    ensures Rank(HandleAll(w, evs[..i]).db.runs[r].status) <= Rank(HandleAll(w, evs[..j]).db.runs[r].status)
    decreases j
  {
    hide Handled, Rank, Inserted, StatusAfter, WithoutRedeliveries, NextStatus, Terminal;
    StatusIsOfEventsOnce(w, evs[..j], r);
    StatusIsOfEventsOnce(w, evs[..i], r);
    if i < j {
      StatusNeverFalls(w, evs, r, i, j - 1);
      var front, last := evs[..j - 1], evs[j - 1];
      assert evs[..j][..j - 1] == front && evs[..j][j - 1] == last;
      HandledStatus(HandleAll(w, front), last, r);
      if !Inserted(HandleAll(w, front).db, last) {
        NewIsKept(w, evs, j - 1);
        if last.run == r && last.number > 0 { NextRank(HandleAll(w, front).db.runs[r].status, last.payload); }
      }
    }
  }

  /** A delivery that is not a redelivery stays when redeliveries are removed. */
  lemma {:induction false} NewIsKept(w: World, evs: seq<Event>, k: nat)
    requires k < |evs| && !Inserted(HandleAll(w, evs[..k]).db, evs[k])
    ensures evs[k] in WithoutRedeliveries(w, evs)
    decreases |evs|
  {
    hide HandleAll, Inserted;
    var front := evs[..|evs| - 1];
    if k < |front| {
      assert front[..k] == evs[..k];
      NewIsKept(w, front, k);
    }
  }

  /** A final status changes exactly when a new end event of the run gives it a different one. */
  lemma FinalStatusChanges(w: World, ev: Event, r: RunId)
    requires r != "" && r in w.db.runs && Terminal(w.db.runs[r].status)
    ensures r in Handled(w, ev).db.runs
    ensures Handled(w, ev).db.runs[r].status != w.db.runs[r].status <==>
      && ev.run == r && ev.number > 0 && !Inserted(w.db, ev) && ev.payload.Finished?
      && (if ev.payload.status == "" then FAILED else ev.payload.status) != w.db.runs[r].status
  {
    HandledStatus(w, ev, r);
  }

  /** It does: a failure reported after a success. */
  lemma FinalStatusIsOverwritten()
    ensures
      var row := RunRow("c", Main, "succeeded", None);
      var w := World(Db(map[], map["r" := row], map[], map[]), []);
      Handled(w, Event("r", 1, Finished("failed"))).db.runs["r"].status == "failed"
  {
  }

  /** When a handler fails after the journal insert, delivering the event again makes up for it exactly when
      nothing that was still to be done would have changed anything. */
  lemma CrashThenRedelivery(w: World, ev: Event, stage: nat)
    requires Applies(w.db, ev) && !Inserted(w.db, ev)
    ensures
      var row := w.db.runs[ev.run];
      Handled(HandledUpTo(w, ev, stage), ev) == Handled(w, ev) <==>
        || stage == 0
        || ((stage < 3 ==> !(ev.payload.Completed? && row.kind.Main? && ev.run !in w.db.answers))
            && (stage < 4 ==> NextStatus(row.status, ev.payload) == row.status)
            && (stage < 6 ==> !(ev.payload.Finished? && Holds(w.db, row.conv, ev.run))))
  {
    var row := w.db.runs[ev.run];
    var d2 := EnsureSubagentRun(InsertEvent(w.db, ev), row.conv, ev);
    assert d2.runs[ev.run] == row;
    SaveSame(d2, row, ev);
    SaveSame(InsertAnswer(d2, row, ev), row, ev);
  }

  /** A failure before the answer is stored loses the answer, and one between the clearing of the slot and the
      callback loses the callback. */
  lemma CrashLoses()
    ensures
      var row := RunRow("c", Main, RUNNING, None);
      var w := World(Db(map["c" := Conv(Some("r"), false)], map["r" := row], map[], map[]), []);
      var answer, end := Event("r", 1, Completed("text")), Event("r", 2, Finished("succeeded"));
      && AnswerOf(Handled(HandledUpTo(w, answer, 2), answer).db, "r") == None
      && AnswerOf(Handled(w, answer).db, "r") == Some("text")
      && Handled(HandledUpTo(w, end, 5), end).cleared == [] && Handled(w, end).cleared == ["c"]
  {
    var row := RunRow("c", Main, RUNNING, None);
    var w := World(Db(map["c" := Conv(Some("r"), false)], map["r" := row], map[], map[]), []);
    var answer, end := Event("r", 1, Completed("text")), Event("r", 2, Finished("succeeded"));
    assert HandledUpTo(w, answer, 2).db.answers == map[];
    assert Inserted(HandledUpTo(w, answer, 2).db, answer) && Inserted(HandledUpTo(w, end, 5).db, end);
    assert HandledUpTo(w, end, 5).cleared == [];
  }

  /** m is the greatest number in the journal of run r, 0 when there is none. */
  ghost predicate IsMaxSeq(db: Db, r: RunId, m: nat) {
    (m == 0 || (r, m) in db.journal) && forall n: int :: (r, n) in db.journal ==> n <= m
  }

  /** The two events the sweeper sends for a stale run or an orphaned subagent run, when m was its greatest number. */
  function SweeperMessage(r: RunId, m: nat): Event {
    Event(r, m + 1, Completed(""))
  }

  function SweeperEnd(r: RunId, m: nat): Event {
    Event(r, m + 2, Finished(FAILED))
  }

  lemma {:induction false} HandleAllAppend(w: World, a: seq<Event>, b: seq<Event>)
    ensures HandleAll(w, a + b) == HandleAll(HandleAll(w, a), b)
    decreases |b|
  {
    hide Handled;
    if b == [] {
      assert a + b == a;
    } else {
      var all := a + b;
      HandleAllAppend(w, a, b[..|b| - 1]);
      assert all[..|all| - 1] == a + b[..|b| - 1];
    }
  }

  lemma HandleOne(w: World, ev: Event)
    ensures HandleAll(w, [ev]) == Handled(w, ev)
  {
    hide Handled;
    assert [ev][..0] == [];
  }

  lemma Between(w: World, first: Event, between: seq<Event>, last: Event)
    ensures HandleAll(w, [first] + between + [last]) == Handled(HandleAll(Handled(w, first), between), last)
  {
    hide Handled, HandleAll;
    HandleAllAppend(w, [first] + between, [last]);
    HandleAllAppend(w, [first], between);
    HandleOne(w, first);
    HandleOne(HandleAll(w, [first] + between), last);
  }

  lemma MessageHandled(w: World, r: RunId, m: nat)
    requires r != "" && r in w.db.runs
    ensures
      var w' := Handled(w, SweeperMessage(r, m));
      && w'.db.runs == w.db.runs && w'.db.convs == w.db.convs && w'.cleared == w.cleared
      && w'.db.journal.Keys == w.db.journal.Keys + {(r, m + 1)}
      && AnswerOf(w'.db, r) == if w.db.runs[r].kind.Main? && AnswerOf(w.db, r).None? && (r, m + 1) !in w.db.journal
                               then Some("") else AnswerOf(w.db, r)
  {
    assert w.db.runs[r := w.db.runs[r]] == w.db.runs;
  }

  lemma EndHandled(w: World, r: RunId, m: nat)
    requires r != "" && r in w.db.runs
    ensures
      var w', conv := Handled(w, SweeperEnd(r, m)), w.db.runs[r].conv;
      && ((r, m + 2) in w.db.journal ==> w' == w)
      && ((r, m + 2) !in w.db.journal ==>
            && w'.db.runs == w.db.runs[r := w.db.runs[r].(status := FAILED)]
            && w'.db.convs == Clear(w.db, conv, r).convs && w'.db.answers == w.db.answers
            && w'.cleared == w.cleared + if Holds(w.db, conv, r) then [conv] else [])
  {
  }

  /** What they do, whatever has been journalled since the number was read, and whatever is delivered between them: the
      message is lost when another event took its number, and the end changes nothing when another event took its. */
  lemma SweeperEffect(w: World, between: seq<Event>, r: RunId, m: nat)
    requires r != "" && r in w.db.runs
    ensures
      var w1 := Handled(w, SweeperMessage(r, m));
      var w2 := HandleAll(w1, between);
      var w' := HandleAll(w, [SweeperMessage(r, m)] + between + [SweeperEnd(r, m)]);
      && r in w2.db.runs && r in w'.db.runs
      && AnswerOf(w1.db, r) == (if w.db.runs[r].kind.Main? && AnswerOf(w.db, r).None? && (r, m + 1) !in w.db.journal
                                then Some("") else AnswerOf(w.db, r))
      && var conv := w.db.runs[r].conv;
      && w2.db.runs[r].conv == conv
      && if (r, m + 2) in w2.db.journal then w' == w2
         else
           && w'.db.runs[r] == w.db.runs[r].(status := FAILED) && w'.db.answers == w2.db.answers
           && w'.db.convs == Clear(w2.db, conv, r).convs && !Holds(w'.db, conv, r)
           && w'.cleared == w2.cleared + if Holds(w2.db, conv, r) then [conv] else []
  {
    var w1 := Handled(w, SweeperMessage(r, m));
    Between(w, SweeperMessage(r, m), between, SweeperEnd(r, m));
    MessageHandled(w, r, m);
    HandleAllKeepsRun(w1, between, r);
    EndHandled(HandleAll(w1, between), r, m);
    hide Handled, HandleAll;
  }

  lemma {:induction false} HandleAllKeepsRun(w: World, evs: seq<Event>, r: RunId)
    requires r in w.db.runs
    ensures r in HandleAll(w, evs).db.runs
    ensures HandleAll(w, evs).db.runs[r].(status := "") == w.db.runs[r].(status := "")
  {
    if evs != [] {
      hide Handled;
      HandleAllKeepsRun(w, evs[..|evs| - 1], r);
      HandledKeepsRun(HandleAll(w, evs[..|evs| - 1]), evs[|evs| - 1], r);
    }
  }

  /** An answer once given stays, and a subagent run gets none. */
  lemma {:induction false} AnswerStays(w: World, evs: seq<Event>, r: RunId)
    requires r != "" && r in w.db.runs && (AnswerOf(w.db, r).Some? || !w.db.runs[r].kind.Main?)
    ensures AnswerOf(HandleAll(w, evs).db, r) == AnswerOf(w.db, r)
  {
    if evs != [] {
      hide Handled;
      AnswerStays(w, evs[..|evs| - 1], r);
      HandleAllKeepsRun(w, evs[..|evs| - 1], r);
      HandledAnswer(HandleAll(w, evs[..|evs| - 1]), evs[|evs| - 1], r);
    }
  }

  /** A number gets into the journal by an event that has it. */
  lemma {:induction false} OnlyDelivered(w: World, evs: seq<Event>, k: Key)
    requires k !in w.db.journal && forall ev :: ev in evs ==> KeyOf(ev) != k
    ensures k !in HandleAll(w, evs).db.journal
  {
    if evs != [] {
      var front, last := evs[..|evs| - 1], evs[|evs| - 1];
      OnlyDelivered(w, front, k);
      assert KeyOf(last) != k;
    }
  }

  /** It does not end a run that published two more events after its number was read. */
  lemma SweeperIsTooLate()
    ensures
      var row := RunRow("c", Main, RUNNING, None);
      var journal := map[("r", 1) := Event("r", 1, OtherEvent), ("r", 2) := Event("r", 2, OtherEvent)];
      var w := World(Db(map["c" := Conv(Some("r"), false)], map["r" := row], journal, map[]), []);
      var w' := HandleAll(w, [SweeperMessage("r", 0)] + [] + [SweeperEnd("r", 0)]);
      "r" in w'.db.runs && w'.db.runs["r"].status == RUNNING && Holds(w'.db, "c", "r")
  {
    var row := RunRow("c", Main, RUNNING, None);
    var journal := map[("r", 1) := Event("r", 1, OtherEvent), ("r", 2) := Event("r", 2, OtherEvent)];
    var w := World(Db(map["c" := Conv(Some("r"), false)], map["r" := row], journal, map[]), []);
    SweeperEffect(w, [], "r", 0);
    MessageHandled(w, "r", 0);
    assert HandleAll(Handled(w, SweeperMessage("r", 0)), []) == Handled(w, SweeperMessage("r", 0));
    hide HandleAll, Handled;
  }

  /** When no other event takes the number of the end, handling them ends the run whatever was lost before: it fails, a
      main run keeps the answer it had or else gets an empty one, and the run gives up its conversation's slot, with
      the callback if it had it. */
  lemma SweeperEndsRun(w: World, between: seq<Event>, r: RunId, m: nat)
    requires r != "" && r in w.db.runs && IsMaxSeq(w.db, r, m)
    requires forall ev :: ev in between ==> KeyOf(ev) != (r, m + 2)
    ensures
      var w2 := HandleAll(Handled(w, SweeperMessage(r, m)), between);
      var w' := HandleAll(w, [SweeperMessage(r, m)] + between + [SweeperEnd(r, m)]);
      var conv := w.db.runs[r].conv;
      && r in w'.db.runs && w'.db.runs[r] == w.db.runs[r].(status := FAILED)
      && AnswerOf(w'.db, r) == (if r !in w.db.answers && w.db.runs[r].kind.Main? then Some("") else AnswerOf(w.db, r))
      && !Holds(w'.db, conv, r) && w'.cleared == w2.cleared + if Holds(w2.db, conv, r) then [conv] else []
  {
    SweeperEffect(w, between, r, m);
    MessageHandled(w, r, m);
    hide Handled, HandleAll;
    assert (r, m + 1) !in w.db.journal && (r, m + 2) !in w.db.journal;
    OnlyDelivered(Handled(w, SweeperMessage(r, m)), between, (r, m + 2));
    AnswerStays(Handled(w, SweeperMessage(r, m)), between, r);
  }

  lemma SaveSame(db: Db, row: RunRow, ev: Event)
    requires ev.run in db.runs && db.runs[ev.run] == row
    ensures SaveRun(db, row, ev) == db <==> NextStatus(row.status, ev.payload) == row.status
  {
    if NextStatus(row.status, ev.payload) == row.status {
      assert SaveRun(db, row, ev).runs == db.runs;
    } else {
      assert SaveRun(db, row, ev).runs[ev.run] != row;
    }
  }
}
