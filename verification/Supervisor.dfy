/** The subagent supervisor: what happens between two awaits is one step, and steps of all tasks interleave. */
module Supervisor {
  import opened Common

  const MAX_INFLIGHT: nat := 21
  const MAX_DEPTH: nat := 2

  type ConvId = string
  type SubId = string

  datatype Job = Job(depth: nat, cancelled: bool, suppressWake: bool, timedOut: bool)

  /** Where the coroutine of an accepted job is: its files are being written, it runs, its status is being
      written, or it is out of the in-flight table. */
  datatype Phase = Spawning | Driving | Finishing(status: string) | Gone

  /** What the supervisor holds for one conversation: the jobs in flight, the ids used up, the keepalive
      stop event (is it set) if there is one; and, of every job accepted so far, its phase. */
  datatype Row = Row(running: map<SubId, Job>, used: set<SubId>, stop: Option<bool>, phases: map<SubId, Phase>)

  const EMPTY_ROW := Row(map[], {}, None, map[])

  // What one step does to the row of its conversation

  /** The checks of spawn under the lock. */
  predicate MayClaim(r: Row, parentDepth: nat, id: SubId) {
    parentDepth < MAX_DEPTH && id !in r.used && id !in r.running && |r.running| < MAX_INFLIGHT
  }

  /** An id whose spec file exists already is used up without a job. */
  function Burnt(r: Row, id: SubId): Row {
    r.(used := r.used + {id})
  }

  function Accepted(r: Row, id: SubId, depth: nat): Row {
    Row(r.running[id := Job(depth, false, false, false)], r.used + {id}, Some(false), r.phases[id := Spawning])
  }

  /** Leaving the in-flight table; the last job of a conversation sets its keepalive stop. */
  function Released(r: Row, id: SubId): Row {
    var left := r.running - {id};
    r.(running := left, stop := if left == map[] && r.stop.Some? then Some(true) else r.stop)
  }

  function TerminalStatus(job: Job, loopStatus: string): string {
    if job.suppressWake then "cancelled"
    else if job.timedOut then "timed_out"
    else if loopStatus == "succeeded" || loopStatus == "failed" || loopStatus == "cancelled" then loopStatus
    else "failed"
  }

  /** Cancelling a conversation silences every job in flight. */
  function Silenced(r: Row): Row {
    r.(running := map id | id in r.running :: r.running[id].(suppressWake := true, cancelled := true))
  }

  datatype TaskOp =
    | SetupFails
    | SetupDone
    | TimesOut
    | LoopEnds(loopStatus: string)
    | TaskCancelled
    | Finish(reachable: bool) // there is a session and a publisher

  predicate InFlight(r: Row, id: SubId) {
    id in r.phases && !r.phases[id].Gone?
  }

  /** A step of one task; locked: another task holds the lock, and the steps that need it wait. */
  function TaskStep(r: Row, id: SubId, op: TaskOp, locked: bool): Row {
    if id !in r.running || !InFlight(r, id) then r
    else
      var job := r.running[id];
      match r.phases[id]
      case Spawning =>
        if op.SetupDone? then r.(phases := r.phases[id := Driving])
        else if op.SetupFails? && !locked then Released(r, id).(phases := r.phases[id := Gone])
        else r
      case Driving =>
        if op.TimesOut? then r.(running := r.running[id := job.(timedOut := true, cancelled := true)])
        else if op.LoopEnds? then r.(phases := r.phases[id := Finishing(TerminalStatus(job, op.loopStatus))])
        else if op.TaskCancelled? then
          r.(running := r.running[id := job.(suppressWake := true, cancelled := true)],
             phases := r.phases[id := Finishing("cancelled")])
        else r
      case Finishing(status) =>
        if op.Finish? && !locked then Released(r, id).(phases := r.phases[id := Gone]) else r
      case Gone => r
  }

  /** The status published by a step of a task, if it publishes: the last one, unless silenced. */
  function Publishes(r: Row, id: SubId, op: TaskOp, locked: bool): Option<string> {
    if id in r.running && id in r.phases && r.phases[id].Finishing? && op.Finish? && !locked
       && !r.running[id].suppressWake && op.reachable
    then Some(r.phases[id].status) else None
  }

  // The invariant of a row

  /** The table holds exactly the jobs in flight, few and shallow, under ids that are used up; the keepalive
      is on exactly while a job is in flight; a timed-out job that still speaks says so. */
  ghost predicate RowOk(r: Row) {
    && (forall id :: id in r.running <==> InFlight(r, id))
    && (forall id :: id in r.running ==> 1 <= r.running[id].depth <= MAX_DEPTH)
    && |r.running| <= MAX_INFLIGHT
    && (forall id :: id in r.phases ==> id in r.used)
    && (r.stop == Some(false) <==> r.running != map[])
    && (forall id :: id in r.running && r.running[id].timedOut && !r.running[id].suppressWake && r.phases[id].Finishing?
                     ==> r.phases[id].status == "timed_out")
  }

  lemma ClaimIsFresh(r: Row, id: SubId, depth: nat)
    requires RowOk(r) && id !in r.used && |r.running| < MAX_INFLIGHT && 1 <= depth <= MAX_DEPTH
    ensures id !in r.phases && RowOk(Accepted(r, id, depth))
  {
    assert id !in r.running by { assert !InFlight(r, id); }
    assert |r.running[id := Job(depth, false, false, false)]| == |r.running| + 1;
  }

  lemma BurntKeeps(r: Row, id: SubId)
    requires RowOk(r)
    ensures RowOk(Burnt(r, id))
  {}

  lemma SilencedKeeps(r: Row)
    requires RowOk(r)
    ensures RowOk(Silenced(r)) && Silenced(r).running.Keys == r.running.Keys
  {
    var t := Silenced(r);
    assert t.running.Keys == r.running.Keys;
    assert |t.running| == |r.running|;
  }

  lemma ReleasedKeeps(r: Row, id: SubId)
    requires RowOk(r) && id in r.running
    ensures RowOk(Released(r, id).(phases := r.phases[id := Gone]))
    ensures Released(r, id).used == r.used && |Released(r, id).running| <= |r.running|
  {
    var left := r.running - {id};
    assert r.running == left[id := r.running[id]];
  }

  lemma SetPhaseKeeps(r: Row, id: SubId, phase: Phase)
    requires RowOk(r) && id in r.running && !phase.Gone?
    requires phase.Finishing? && r.running[id].timedOut && !r.running[id].suppressWake ==> phase.status == "timed_out"
    ensures RowOk(r.(phases := r.phases[id := phase]))
  {}

  lemma SetJobKeeps(r: Row, id: SubId, job: Job)
    requires RowOk(r) && id in r.running && r.phases[id].Driving? && job.depth == r.running[id].depth
    ensures RowOk(r.(running := r.running[id := job])) && |r.running[id := job]| == |r.running|
  {
    assert r.running[id := job].Keys == r.running.Keys;
    assert |r.running[id := job].Keys| == |r.running[id := job]|;
    assert |r.running.Keys| == |r.running|;
  }

  lemma TaskStepKeeps(r: Row, id: SubId, op: TaskOp, locked: bool)
    requires RowOk(r)
    ensures RowOk(TaskStep(r, id, op, locked))
    ensures TaskStep(r, id, op, locked).used == r.used
    ensures |TaskStep(r, id, op, locked).running| <= |r.running|
  {
    if id in r.running {
      var job := r.running[id];
      assert InFlight(r, id);
      hide Released, RowOk;
      match r.phases[id]
      case Spawning =>
        if op.SetupDone? { SetPhaseKeeps(r, id, Driving); }
        ReleasedKeeps(r, id);
      case Driving =>
        if op.TimesOut? {
          SetJobKeeps(r, id, job.(timedOut := true, cancelled := true));
        } else if op.LoopEnds? {
          SetPhaseKeeps(r, id, Finishing(TerminalStatus(job, op.loopStatus)));
        } else if op.TaskCancelled? {
          var quiet := job.(suppressWake := true, cancelled := true);
          SetJobKeeps(r, id, quiet);
          SetPhaseKeeps(r.(running := r.running[id := quiet]), id, Finishing("cancelled"));
        }
      case Finishing(_) => ReleasedKeeps(r, id);
    }
  }

  // Silence

  /** The job was accepted and will never publish: it is gone, or told not to. */
  ghost predicate Quiet(r: Row, id: SubId) {
    id in r.phases && (id in r.running ==> r.running[id].suppressWake)
  }

  lemma QuietStays(r: Row, id: SubId, other: SubId, op: TaskOp, locked: bool)
    requires RowOk(r) && Quiet(r, id)
    ensures Quiet(TaskStep(r, other, op, locked), id)
    ensures Publishes(r, id, op, locked).None?
  {}

  lemma PublishingQuiets(r: Row, id: SubId, op: TaskOp, locked: bool)
    requires RowOk(r) && Publishes(r, id, op, locked).Some?
    ensures Quiet(TaskStep(r, id, op, locked), id)
    ensures r.running[id].timedOut ==> Publishes(r, id, op, locked).value == "timed_out"
  {
    assert InFlight(r, id);
  }

  lemma AcceptedStaysQuiet(r: Row, id: SubId, other: SubId, depth: nat)
    requires RowOk(r) && Quiet(r, id) && other !in r.used
    ensures Quiet(Accepted(r, other, depth), id)
  {}

  // All conversations

  /** A spawn that holds the lock while it waits to learn whether a spec file exists already. */
  datatype Claim = Claim(conv: ConvId, id: SubId, depth: nat)

  datatype State = State(rows: map<ConvId, Row>, holder: Option<Claim>)

  const START := State(map[], None)

  function RowAt(s: State, c: ConvId): Row {
    if c in s.rows then s.rows[c] else EMPTY_ROW
  }

  function SetRow(s: State, c: ConvId, r: Row): State {
    s.(rows := s.rows[c := r])
  }

  datatype SpecFile = Missing | Present | Unreadable

  datatype Action =
    | Spawn(conv: ConvId, parentDepth: nat, id: SubId) // up to the await inside the lock
    | ReadSpec(found: SpecFile)                        // from there to the end of the lock section
    | CancelConversation(conv: ConvId)
    | Task(conv: ConvId, id: SubId, op: TaskOp)

  function SpecRead(s: State, found: SpecFile): State {
    if s.holder.None? then s
    else
      var Claim(c, id, depth) := s.holder.value;
      var free := s.(holder := None);
      match found
      case Unreadable => free
      case Present => SetRow(free, c, Burnt(RowAt(s, c), id))
      case Missing => SetRow(free, c, Accepted(RowAt(s, c), id, depth))
  }

  /** Steps that need the lock do nothing while a spawn holds it: they are taken later. */
  function Step(s: State, a: Action): State {
    match a
    case Spawn(c, d, id) =>
      if s.holder.None? && MayClaim(RowAt(s, c), d, id) then s.(holder := Some(Claim(c, id, d + 1))) else s
    case ReadSpec(found) => SpecRead(s, found)
    case CancelConversation(c) => if s.holder.None? then SetRow(s, c, Silenced(RowAt(s, c))) else s
    case Task(c, id, op) => SetRow(s, c, TaskStep(RowAt(s, c), id, op, s.holder.Some?))
  }

  function Exec(actions: seq<Action>): State {
    if actions == [] then START else Step(Exec(actions[..|actions| - 1]), actions[|actions| - 1])
  }

  /** The step accepts this job. */
  predicate Accepts(s: State, a: Action, c: ConvId, id: SubId) {
    a == ReadSpec(Missing) && s.holder.Some? && s.holder.value.conv == c && s.holder.value.id == id
  }

  /** The step publishes a wake of this job. */
  predicate Wakes(s: State, a: Action, c: ConvId, id: SubId) {
    a.Task? && a.conv == c && a.id == id && Publishes(RowAt(s, c), id, a.op, s.holder.Some?).Some?
  }

  ghost predicate HolderOk(s: State) {
    s.holder.Some? ==>
      var Claim(c, id, depth) := s.holder.value;
      id !in RowAt(s, c).used && |RowAt(s, c).running| < MAX_INFLIGHT && 1 <= depth <= MAX_DEPTH
  }

  ghost predicate Inv(s: State) {
    (forall c :: RowOk(RowAt(s, c))) && HolderOk(s)
  }

  lemma SetRowKeeps(s: State, c: ConvId, r: Row, free: bool)
    requires Inv(s) && RowOk(r)
    requires free || (r.used == RowAt(s, c).used && |r.running| <= |RowAt(s, c).running|)
    ensures Inv(SetRow(if free then s.(holder := None) else s, c, r))
  {
    hide RowOk;
    var t := SetRow(if free then s.(holder := None) else s, c, r);
    assert forall d :: RowAt(t, d) == if d == c then r else RowAt(s, d);
  }

  lemma HolderKeeps(s: State, holder: Option<Claim>)
    requires Inv(s)
    ensures forall c :: RowOk(RowAt(s.(holder := holder), c))
  {
    hide RowOk;
    assert forall c :: RowAt(s.(holder := holder), c) == RowAt(s, c);
  }

  lemma StepKeeps(s: State, a: Action)
    requires Inv(s)
    ensures Inv(Step(s, a))
  {
    hide RowOk, TaskStep, Burnt, Accepted, Silenced, SetRow;
    match a
    case Spawn(c, d, id) => HolderKeeps(s, Some(Claim(c, id, d + 1)));
    case ReadSpec(found) =>
      HolderKeeps(s, None);
      if s.holder.Some? {
        var Claim(c, id, depth) := s.holder.value;
        ClaimIsFresh(RowAt(s, c), id, depth);
        SetRowKeeps(s, c, Accepted(RowAt(s, c), id, depth), true);
        BurntKeeps(RowAt(s, c), id);
        SetRowKeeps(s, c, Burnt(RowAt(s, c), id), true);
      }
    case CancelConversation(c) =>
      SilencedKeeps(RowAt(s, c));
      SetRowKeeps(s, c, Silenced(RowAt(s, c)), true);
    case Task(c, id, op) =>
      TaskStepKeeps(RowAt(s, c), id, op, s.holder.Some?);
      SetRowKeeps(s, c, TaskStep(RowAt(s, c), id, op, s.holder.Some?), false);
  }

  /** The invariant holds in every interleaving. */
  lemma {:induction false} AlwaysOk(actions: seq<Action>)
    ensures Inv(Exec(actions))
    decreases |actions|
  {
    if actions != [] {
      AlwaysOk(actions[..|actions| - 1]);
      StepKeeps(Exec(actions[..|actions| - 1]), actions[|actions| - 1]);
    }
  }

  // Whole histories

  /** In every interleaving: at most 21 jobs in flight a conversation, each of depth 1 or 2, and the keepalive
      is on exactly while there is one. */
  lemma InFlightLimits(actions: seq<Action>, c: ConvId)
    ensures
      var r := RowAt(Exec(actions), c);
      && |r.running| <= 21
      && (forall id :: id in r.running ==> 1 <= r.running[id].depth <= 2)
      && (r.stop == Some(false) <==> r.running != map[])
  {
    AlwaysOk(actions);
    assert RowOk(RowAt(Exec(actions), c));
  }

  lemma AcceptedIsFresh(s: State, a: Action, c: ConvId, id: SubId)
    requires Inv(s) && Accepts(s, a, c, id)
    ensures id !in RowAt(s, c).phases && id in RowAt(Step(s, a), c).phases
  {
    ClaimIsFresh(RowAt(s, c), id, s.holder.value.depth);
  }

  lemma ExecNext(actions: seq<Action>, j: nat)
    requires 0 < j <= |actions|
    ensures Exec(actions[..j]) == Step(Exec(actions[..j - 1]), actions[j - 1])
  {
    assert actions[..j][..j - 1] == actions[..j - 1];
  }

  lemma PhasesStay(s: State, a: Action, c: ConvId, id: SubId)
    requires id in RowAt(s, c).phases
    ensures id in RowAt(Step(s, a), c).phases
  {}

  lemma {:induction false} PhasesStayOver(actions: seq<Action>, i: nat, j: nat, c: ConvId, id: SubId)
    requires i <= j <= |actions| && id in RowAt(Exec(actions[..i]), c).phases
    ensures id in RowAt(Exec(actions[..j]), c).phases
    decreases j
  {
    if i < j {
      PhasesStayOver(actions, i, j - 1, c, id);
      assert actions[..j][..j - 1] == actions[..j - 1];
      PhasesStay(Exec(actions[..j - 1]), actions[j - 1], c, id);
    }
  }

  lemma QuietStep(s: State, a: Action, c: ConvId, id: SubId)
    requires Inv(s) && Quiet(RowAt(s, c), id)
    ensures Quiet(RowAt(Step(s, a), c), id) && !Wakes(s, a, c, id)
  {
    hide RowOk, TaskStep, Publishes;
    var r := RowAt(s, c);
    match a
    case Spawn(_, _, _) =>
    case ReadSpec(found) =>
      if s.holder.Some? && s.holder.value.conv == c {
        AcceptedStaysQuiet(r, id, s.holder.value.id, s.holder.value.depth);
      }
    case CancelConversation(_) =>
    case Task(d, other, op) =>
      QuietStays(r, id, other, op, s.holder.Some?);
  }

  lemma {:induction false} QuietOver(actions: seq<Action>, i: nat, j: nat, c: ConvId, id: SubId)
    requires i <= j <= |actions| && Quiet(RowAt(Exec(actions[..i]), c), id)
    ensures Quiet(RowAt(Exec(actions[..j]), c), id)
    ensures j < |actions| ==> !Wakes(Exec(actions[..j]), actions[j], c, id)
    decreases j
  {
    hide *;
    AlwaysOk(actions[..j]);
    if i < j {
      QuietOver(actions, i, j - 1, c, id);
      ExecNext(actions, j);
      AlwaysOk(actions[..j - 1]);
      QuietStep(Exec(actions[..j - 1]), actions[j - 1], c, id);
    }
    if j < |actions| {
      QuietStep(Exec(actions[..j]), actions[j], c, id);
    }
  }

  /** An accepted id is never accepted again. */
  lemma AcceptedOnce(actions: seq<Action>, i: nat, j: nat, c: ConvId, id: SubId)
    requires i < j < |actions| && Accepts(Exec(actions[..i]), actions[i], c, id)
    ensures !Accepts(Exec(actions[..j]), actions[j], c, id)
  {
    AlwaysOk(actions[..i]);
    AcceptedIsFresh(Exec(actions[..i]), actions[i], c, id);
    assert actions[..i + 1][..i] == actions[..i];
    PhasesStayOver(actions, i + 1, j, c, id);
    AlwaysOk(actions[..j]);
    if Accepts(Exec(actions[..j]), actions[j], c, id) {
      AcceptedIsFresh(Exec(actions[..j]), actions[j], c, id);
    }
  }

  /** A job publishes at most one wake. */
  lemma PublishedOnce(actions: seq<Action>, i: nat, j: nat, c: ConvId, id: SubId)
    requires i < j < |actions| && Wakes(Exec(actions[..i]), actions[i], c, id)
    ensures !Wakes(Exec(actions[..j]), actions[j], c, id)
  {
    AlwaysOk(actions[..i]);
    PublishingQuiets(RowAt(Exec(actions[..i]), c), id, actions[i].op, Exec(actions[..i]).holder.Some?);
    assert actions[..i + 1][..i] == actions[..i];
    QuietOver(actions, i + 1, j, c, id);
  }

  /** A job in flight when its conversation is cancelled never publishes. */
  lemma CancelledIsSilent(actions: seq<Action>, i: nat, j: nat, c: ConvId, id: SubId)
    requires i < j < |actions| && actions[i] == CancelConversation(c) && Exec(actions[..i]).holder.None?
    requires id in RowAt(Exec(actions[..i]), c).running
    ensures !Wakes(Exec(actions[..j]), actions[j], c, id)
  {
    AlwaysOk(actions[..i]);
    assert InFlight(RowAt(Exec(actions[..i]), c), id);
    assert actions[..i + 1][..i] == actions[..i];
    assert Quiet(RowAt(Exec(actions[..i + 1]), c), id);
    QuietOver(actions, i + 1, j, c, id);
  }

  // What is published

  /** A spawn that finds room, an unused id and no spec file is accepted, one level deeper, and nothing else changes. */
  lemma SpawnAccepts(s: State, c: ConvId, depth: nat, id: SubId)
    requires s.holder.None? && depth < 2 && id !in RowAt(s, c).used
    requires id !in RowAt(s, c).running && |RowAt(s, c).running| < 21
    ensures
      var s' := Step(Step(s, Spawn(c, depth, id)), ReadSpec(Missing));
      var r, r' := RowAt(s, c), RowAt(s', c);
      && s'.holder.None? && r'.running == r.running[id := Job(depth + 1, false, false, false)]
      && r'.used == r.used + {id} && r'.phases == r.phases[id := Spawning] && r'.stop == Some(false)
      && forall d :: d != c ==> RowAt(s', d) == RowAt(s, d)
  {
    hide Step, RowAt;
    ClaimTaken(s, c, depth, id);
    ClaimAccepted(s, c, depth + 1, id);
    RowSet(s, c, Accepted(RowAt(s, c), id, depth + 1));
  }

  /** An accepted job from its setup to its end, with nothing in between: it leaves the table as it was. */
  lemma JobRuns(r: Row, id: SubId, depth: nat, loopStatus: string)
    requires id !in r.running
    ensures
      var spawned := Accepted(r, id, depth);
      var driving := TaskStep(spawned, id, SetupDone, false);
      var ended := TaskStep(driving, id, LoopEnds(loopStatus), false);
      var late := TaskStep(TaskStep(driving, id, TimesOut, false), id, LoopEnds(loopStatus), false);
      && Publishes(ended, id, Finish(true), false) == Some(Said(loopStatus))
      && Publishes(late, id, Finish(true), false) == Some("timed_out")
      && TaskStep(ended, id, Finish(true), false).running == r.running
      && TaskStep(spawned, id, SetupFails, false).running == r.running
  {
    assert Accepted(r, id, depth).running - {id} == r.running;
  }

  /** A spawn nobody interferes with: the job is accepted, set up and driven, its wake says how its loop ended, and no
      job is left behind. */
  lemma SpawnRunsThrough(s: State, c: ConvId, depth: nat, id: SubId, loopStatus: string)
    requires s.holder.None? && depth < 2 && id !in RowAt(s, c).used
    requires id !in RowAt(s, c).running && |RowAt(s, c).running| < 21
    ensures
      var accepted := Step(Step(s, Spawn(c, depth, id)), ReadSpec(Missing));
      var ended := Step(Step(accepted, Task(c, id, SetupDone)), Task(c, id, LoopEnds(loopStatus)));
      var s' := Step(ended, Task(c, id, Finish(true)));
      && Publishes(RowAt(ended, c), id, Finish(true), ended.holder.Some?) == Some(Said(loopStatus))
      && s'.holder.None? && RowAt(s', c).running == RowAt(s, c).running
      && forall d :: d != c ==> RowAt(s', d) == RowAt(s, d)
  {
    hide TaskStep, Accepted, Publishes, Said;
    ClaimTaken(s, c, depth, id);
    ClaimAccepted(s, c, depth + 1, id);
    JobRuns(RowAt(s, c), id, depth + 1, loopStatus);
  }

  /** A spec file that exists burns the id, without a job; one that cannot be read changes nothing. */
  lemma SpawnBurns(s: State, c: ConvId, depth: nat, id: SubId)
    requires s.holder.None? && MayClaim(RowAt(s, c), depth, id)
    ensures
      var s1 := Step(s, Spawn(c, depth, id));
      var burnt, kept := Step(s1, ReadSpec(Present)), Step(s1, ReadSpec(Unreadable));
      && burnt.holder.None? && RowAt(burnt, c) == RowAt(s, c).(used := RowAt(s, c).used + {id}) && kept == s
  {
    hide MayClaim;
    var s1 := Step(s, Spawn(c, depth, id));
    assert s1 == s.(holder := Some(Claim(c, id, depth + 1))) && RowAt(s1, c) == RowAt(s, c);
  }

  lemma ClaimTaken(s: State, c: ConvId, depth: nat, id: SubId)
    requires s.holder.None? && MayClaim(RowAt(s, c), depth, id)
    ensures Step(s, Spawn(c, depth, id)) == s.(holder := Some(Claim(c, id, depth + 1)))
  {}

  lemma ClaimAccepted(s: State, c: ConvId, depth: nat, id: SubId)
    requires s.holder.None?
    ensures Step(s.(holder := Some(Claim(c, id, depth))), ReadSpec(Missing))
         == SetRow(s, c, Accepted(RowAt(s, c), id, depth))
  {
    assert RowAt(s.(holder := Some(Claim(c, id, depth))), c) == RowAt(s, c);
  }

  lemma RowSet(s: State, c: ConvId, r: Row)
    ensures forall d :: RowAt(SetRow(s, c, r), d) == if d == c then r else RowAt(s, d)
    ensures SetRow(s, c, r).holder == s.holder
  {}

  /** A step that may silence this job, strike its time limit or cancel its task. */
  predicate Disturbs(a: Action, c: ConvId, id: SubId) {
    a == CancelConversation(c) || a == Task(c, id, TimesOut) || a == Task(c, id, TaskCancelled)
  }

  predicate Undisturbed(actions: seq<Action>, c: ConvId, id: SubId) {
    forall k :: 0 <= k < |actions| ==> !Disturbs(actions[k], c, id)
  }

  /** A job in flight that was not disturbed is as it was accepted. */
  ghost predicate Calm(r: Row, id: SubId) {
    id in r.running ==> !r.running[id].suppressWake && !r.running[id].timedOut
  }

  lemma CalmStep(s: State, a: Action, c: ConvId, id: SubId)
    requires Calm(RowAt(s, c), id) && !Disturbs(a, c, id)
    ensures Calm(RowAt(Step(s, a), c), id)
  {}

  lemma {:induction false} CalmOver(actions: seq<Action>, c: ConvId, id: SubId)
    requires Undisturbed(actions, c, id)
    ensures Calm(RowAt(Exec(actions), c), id)
    decreases |actions|
  {
    if actions != [] {
      hide Calm, Step;
      var n := |actions| - 1;
      CalmOver(actions[..n], c, id);
      CalmStep(Exec(actions[..n]), actions[n], c, id);
    } else {
      assert RowAt(START, c) == EMPTY_ROW;
    }
  }

  /** The loop of this job ends with this step. */
  predicate EndsLoop(s: State, a: Action, c: ConvId, id: SubId, loopStatus: string) {
    Reaches(s, a, c, id, LoopEnds(loopStatus))
  }

  /** What is said of the end of a loop: its own word, or else "failed". */
  function Said(loopStatus: string): string {
    if loopStatus in {"succeeded", "failed", "cancelled"} then loopStatus else "failed"
  }

  lemma EndsLoopStep(s: State, a: Action, c: ConvId, id: SubId, loopStatus: string)
    requires EndsLoop(s, a, c, id, loopStatus)
    ensures
      var job := RowAt(s, c).running[id];
      var r' := RowAt(Step(s, a), c);
      && id in r'.running && r'.running[id] == job && id in r'.phases
      && r'.phases[id] == Finishing(if job.suppressWake then "cancelled"
                                    else if job.timedOut then "timed_out" else Said(loopStatus))
  {}

  /** A status once fixed stays until the job is gone, and the job is told nothing new but silence. */
  ghost predicate Fixed(r: Row, id: SubId, status: string) {
    id in r.phases && (r.phases[id] == Finishing(status) || r.phases[id].Gone?)
  }

  lemma FixedTask(r: Row, other: SubId, op: TaskOp, locked: bool, id: SubId, status: string)
    requires Fixed(r, id, status)
    ensures Fixed(TaskStep(r, other, op, locked), id, status)
  {}

  lemma FixedStep(s: State, a: Action, c: ConvId, id: SubId, status: string)
    requires Inv(s) && Fixed(RowAt(s, c), id, status)
    ensures Fixed(RowAt(Step(s, a), c), id, status)
  {
    match a
    case Spawn(_, _, _) =>
    case ReadSpec(found) =>
      if s.holder.Some? && s.holder.value.conv == c {
        ClaimIsFresh(RowAt(s, c), s.holder.value.id, s.holder.value.depth);
      }
    case CancelConversation(_) =>
    case Task(d, other, op) =>
      FixedTask(RowAt(s, c), other, op, s.holder.Some?, id, status);
      hide TaskStep, Fixed;
  }

  lemma {:induction false} FixedOver(actions: seq<Action>, i: nat, j: nat, c: ConvId, id: SubId, status: string)
    requires i <= j <= |actions| && Fixed(RowAt(Exec(actions[..i]), c), id, status)
    ensures Fixed(RowAt(Exec(actions[..j]), c), id, status)
    decreases j
  {
    hide *;
    if i < j {
      FixedOver(actions, i, j - 1, c, id, status);
      AlwaysOk(actions[..j - 1]);
      ExecNext(actions, j);
      FixedStep(Exec(actions[..j - 1]), actions[j - 1], c, id, status);
    }
  }

  /** Whatever else happens, a wake says how the loop ended, unless the time limit had struck before. */
  lemma WakeSaysLoopStatus(actions: seq<Action>, i: nat, j: nat, c: ConvId, id: SubId, loopStatus: string)
    requires i < j < |actions| && EndsLoop(Exec(actions[..i]), actions[i], c, id, loopStatus)
    requires Wakes(Exec(actions[..j]), actions[j], c, id)
    requires !RowAt(Exec(actions[..i]), c).running[id].suppressWake
    ensures
      Publishes(RowAt(Exec(actions[..j]), c), id, actions[j].op, Exec(actions[..j]).holder.Some?)
      == Some(if RowAt(Exec(actions[..i]), c).running[id].timedOut then "timed_out" else Said(loopStatus))
  {
    var job := RowAt(Exec(actions[..i]), c).running[id];
    EndsLoopStep(Exec(actions[..i]), actions[i], c, id, loopStatus);
    assert actions[..i + 1][..i] == actions[..i];
    FixedOver(actions, i + 1, j, c, id, if job.timedOut then "timed_out" else Said(loopStatus));
    hide Step, Exec;
  }

  lemma FixedPublishes(r: Row, id: SubId, status: string)
    requires RowOk(r) && Fixed(r, id, status) && Calm(r, id) && id in r.running
    ensures Publishes(r, id, Finish(true), false) == Some(status)
  {
    assert InFlight(r, id);
  }

  /** And there is a wake: a job never silenced, timed out or cancelled, whose loop has ended, publishes exactly how,
      when it takes its last step with the lock free and someone to tell. */
  lemma UndisturbedJobIsPublished(actions: seq<Action>, i: nat, c: ConvId, id: SubId, loopStatus: string)
    requires i < |actions| && EndsLoop(Exec(actions[..i]), actions[i], c, id, loopStatus)
    requires Undisturbed(actions, c, id) && Exec(actions).holder.None? && id in RowAt(Exec(actions), c).running
    ensures Publishes(RowAt(Exec(actions), c), id, Finish(true), false) == Some(Said(loopStatus))
    ensures Wakes(Exec(actions), Task(c, id, Finish(true)), c, id)
  {
    hide Publishes, RowOk, TaskStep;
    assert actions[..|actions|] == actions && actions[..i + 1][..i] == actions[..i];
    CalmOver(actions[..i], c, id);
    CalmOver(actions, c, id);
    EndsLoopStep(Exec(actions[..i]), actions[i], c, id, loopStatus);
    hide Step, Exec;
    FixedOver(actions, i + 1, |actions|, c, id, Said(loopStatus));
    AlwaysOk(actions);
    FixedPublishes(RowAt(Exec(actions), c), id, Said(loopStatus));
  }

  // What else a history does to a job

  /** A job in flight has been told to stop exactly if it was silenced or its time limit struck. */
  ghost predicate ToldRight(r: Row) {
    forall id :: id in r.running ==>
      (r.running[id].cancelled <==> r.running[id].suppressWake || r.running[id].timedOut)
  }

  lemma ToldStep(s: State, a: Action, c: ConvId)
    requires ToldRight(RowAt(s, c))
    ensures ToldRight(RowAt(Step(s, a), c))
  {}

  lemma {:induction false} StopsWhenTold(actions: seq<Action>, c: ConvId)
    ensures ToldRight(RowAt(Exec(actions), c))
    decreases |actions|
  {
    if actions != [] {
      hide ToldRight, Step;
      var n := |actions| - 1;
      StopsWhenTold(actions[..n], c);
      ToldStep(Exec(actions[..n]), actions[n], c);
    } else {
      assert RowAt(START, c) == EMPTY_ROW;
    }
  }

  /** The time limit has struck, or the job is gone. */
  ghost predicate Struck(r: Row, id: SubId) {
    id in r.phases && (id in r.running ==> r.running[id].timedOut)
  }

  lemma StruckTask(r: Row, other: SubId, op: TaskOp, locked: bool, id: SubId)
    requires Struck(r, id)
    ensures Struck(TaskStep(r, other, op, locked), id)
  {}

  lemma StruckStep(s: State, a: Action, c: ConvId, id: SubId)
    requires Inv(s) && Struck(RowAt(s, c), id)
    ensures Struck(RowAt(Step(s, a), c), id)
  {
    match a
    case Spawn(_, _, _) =>
    case ReadSpec(found) =>
      if s.holder.Some? && s.holder.value.conv == c {
        ClaimIsFresh(RowAt(s, c), s.holder.value.id, s.holder.value.depth);
      }
    case CancelConversation(_) =>
    case Task(d, other, op) =>
      StruckTask(RowAt(s, c), other, op, s.holder.Some?, id);
      hide TaskStep, Struck;
  }

  lemma {:induction false} StruckOver(actions: seq<Action>, i: nat, j: nat, c: ConvId, id: SubId)
    requires i <= j <= |actions| && Struck(RowAt(Exec(actions[..i]), c), id)
    ensures Struck(RowAt(Exec(actions[..j]), c), id)
    decreases j
  {
    hide *;
    if i < j {
      StruckOver(actions, i, j - 1, c, id);
      AlwaysOk(actions[..j - 1]);
      ExecNext(actions, j);
      StruckStep(Exec(actions[..j - 1]), actions[j - 1], c, id);
    }
  }

  /** A step that reaches a job at work. */
  predicate Reaches(s: State, a: Action, c: ConvId, id: SubId, op: TaskOp) {
    && a == Task(c, id, op)
    && id in RowAt(s, c).running && id in RowAt(s, c).phases && RowAt(s, c).phases[id].Driving?
  }

  /** A job whose time limit struck says so, if it says anything. */
  lemma TimedOutIsSaid(actions: seq<Action>, i: nat, j: nat, c: ConvId, id: SubId)
    requires i < j < |actions| && Reaches(Exec(actions[..i]), actions[i], c, id, TimesOut)
    requires Wakes(Exec(actions[..j]), actions[j], c, id)
    ensures Publishes(RowAt(Exec(actions[..j]), c), id, actions[j].op, Exec(actions[..j]).holder.Some?) ==
            Some("timed_out")
  {
    assert actions[..i + 1][..i] == actions[..i];
    assert Struck(RowAt(Exec(actions[..i + 1]), c), id);
    StruckOver(actions, i + 1, j, c, id);
    AlwaysOk(actions[..j]);
    hide Step, Exec;
    PublishingQuiets(RowAt(Exec(actions[..j]), c), id, actions[j].op, Exec(actions[..j]).holder.Some?);
  }

  /** A job whose task was cancelled says nothing. */
  lemma CancelledTaskIsSilent(actions: seq<Action>, i: nat, j: nat, c: ConvId, id: SubId)
    requires i < j < |actions| && Reaches(Exec(actions[..i]), actions[i], c, id, TaskCancelled)
    ensures !Wakes(Exec(actions[..j]), actions[j], c, id)
  {
    assert actions[..i + 1][..i] == actions[..i];
    assert Quiet(RowAt(Exec(actions[..i + 1]), c), id);
    QuietOver(actions, i + 1, j, c, id);
  }
}
