/** The supervisor's own tables, changed in place, refine the step system of module Supervisor. */
module SupervisorTables {
  import opened Common
  import opened Supervisor

  datatype Wake = Wake(conv: ConvId, id: SubId, status: string)

  class Tables {
    var running: map<ConvId, map<SubId, Job>>
    var used: map<ConvId, set<SubId>>
    var keepStops: map<ConvId, bool>
    var lock: Option<Claim>    // held across an await by a spawn
    var published: seq<Wake>
    ghost var phases: map<ConvId, map<SubId, Phase>> // where each task has got to

    ghost function RowOf(c: ConvId): Row
      reads this
    {
      Row(if c in running then running[c] else map[],
          if c in used then used[c] else {},
          if c in keepStops then Some(keepStops[c]) else None,
          if c in phases then phases[c] else map[])
    }

    ghost predicate Models(s: State)
      reads this
    {
      lock == s.holder && forall c :: RowOf(c) == RowAt(s, c)
    }

    /** Nothing but the row of one conversation, and perhaps the lock, has changed. */
    twostate predicate OnlyRow(c: ConvId)
      reads this
    {
      forall d :: d != c ==> RowOf(d) == old(RowOf(d))
    }

    /** So a method that takes a row to what a step makes of it takes the tables to what the step makes of them. */
    lemma RowChanged(s: State, c: ConvId)
      requires forall d :: d != c ==> RowOf(d) == RowAt(s, d)
      ensures Models(SetRow(s, c, RowOf(c)).(holder := lock))
    {
      hide RowOf;
      assert forall d :: RowAt(SetRow(s, c, RowOf(c)), d) == if d == c then RowOf(c) else RowAt(s, d);
    }

    /** What a step of one task makes of the state as a whole. */
    lemma TaskRow(s: State, c: ConvId, id: SubId, op: TaskOp)
      ensures Step(s, Task(c, id, op)) == SetRow(s, c, TaskStep(RowAt(s, c), id, op, s.holder.Some?))
    {}

    constructor ()
      ensures Models(START) && published == []
    {
      running, used, keepStops, lock, published, phases := map[], map[], map[], None, [], map[];
    }

    /** The checks of spawn under the lock; a spawn that passes them keeps it for its read. */
    method BeginSpawn(c: ConvId, parentDepth: nat, id: SubId, ghost s: State) returns (reply: string)
      requires Models(s) && lock.None?
      modifies this`used, this`running, this`lock
      ensures forall d :: RowOf(d) == old(RowOf(d))
      ensures lock == if MayClaim(RowOf(c), parentDepth, id) then Some(Claim(c, id, parentDepth + 1)) else None
      ensures reply == "" <==> lock.Some?
      ensures Models(Step(s, Action.Spawn(c, parentDepth, id)))
    {
      assert RowOf(c) == RowAt(s, c);
      reply := CheckSpawn(c, parentDepth, id);
      hide RowOf;
      assert forall d :: RowAt(Step(s, Action.Spawn(c, parentDepth, id)), d) == RowAt(s, d);
    }

    method CheckSpawn(c: ConvId, parentDepth: nat, id: SubId) returns (reply: string)
      requires lock.None?
      modifies this`used, this`running, this`lock
      ensures forall d :: RowOf(d) == old(RowOf(d))
      ensures lock == if MayClaim(RowOf(c), parentDepth, id) then Some(Claim(c, id, parentDepth + 1)) else None
      ensures reply == "" <==> lock.Some?
    {
      if parentDepth >= MAX_DEPTH { return "error: spawn depth exceeded"; }
      if c !in used { used := used[c := {}]; }
      if c !in running { running := running[c := map[]]; }
      if id in used[c] || id in running[c] { return "error: id already exists"; }
      if |running[c]| >= MAX_INFLIGHT { return "error: too many subagents in flight (21)"; }
      lock := Some(Claim(c, id, parentDepth + 1));
      reply := "";
    }

    method EnsureKeepalive(c: ConvId)
      modifies this`keepStops
      ensures keepStops == old(keepStops)[c := false]
    {
      if c in keepStops && !keepStops[c] { return; }
      keepStops := keepStops[c := false];
    }

    /** The lock section of spawn after its read. */
    method EndSpawn(found: SpecFile, ghost s: State)
      requires Models(s) && lock.Some? && lock.value.conv in running && lock.value.conv in used
      modifies this`used, this`running, this`keepStops, this`phases, this`lock
      ensures lock.None?
      ensures var Claim(c, id, depth) := old(lock).value;
              && (forall d :: d != c ==> RowOf(d) == old(RowOf(d)))
              && RowOf(c) == match found
                             case Unreadable => old(RowOf(c))
                             case Present => Burnt(old(RowOf(c)), id)
                             case Missing => Accepted(old(RowOf(c)), id, depth)
      ensures Models(Step(s, ReadSpec(found)))
    {
      var Claim(c, id, depth) := lock.value;
      EnterSpawn(found, c, id, depth);
      RowChanged(s, c);
      assert old(RowOf(c)) == RowAt(s, c);
      SpawnRow(s, found);
      hide Step;
    }

    lemma SpawnRow(s: State, found: SpecFile)
      requires s.holder.Some?
      ensures var Claim(c, id, depth) := s.holder.value;
              var row := match found
                         case Unreadable => RowAt(s, c)
                         case Present => Burnt(RowAt(s, c), id)
                         case Missing => Accepted(RowAt(s, c), id, depth);
              forall d :: RowAt(Step(s, ReadSpec(found)), d) == RowAt(SetRow(s, c, row).(holder := None), d)
    {}

    method EnterSpawn(found: SpecFile, c: ConvId, id: SubId, depth: nat)
      requires c in running && c in used
      modifies this`used, this`running, this`keepStops, this`phases, this`lock
      ensures lock.None? && OnlyRow(c)
      ensures RowOf(c) == match found
                          case Unreadable => old(RowOf(c))
                          case Present => Burnt(old(RowOf(c)), id)
                          case Missing => Accepted(old(RowOf(c)), id, depth)
    {
      ghost var row := RowOf(c);
      lock := None;
      if found.Unreadable? { return; }
      used := used[c := used[c] + {id}];
      if found.Present? { return; }
      running := running[c := running[c][id := Job(depth, false, false, false)]];
      EnsureKeepalive(c);
      phases := phases[c := row.phases[id := Spawning]];
    }

    /** Takes a job out of the table and stops the keepalive after the last one. */
    method Release(c: ConvId, id: SubId)
      requires RowOf(c).stop == Some(false) ==> RowOf(c).running != map[]
      modifies this`running, this`keepStops
      ensures OnlyRow(c) && RowOf(c) == Released(old(RowOf(c)), id)
    {
      ghost var left := RowOf(c).running - {id};
      if c in running {
        running := running[c := running[c] - {id}];
        assert RowOf(c).running == left;
        if running[c] == map[] && c in keepStops {
          keepStops := keepStops[c := true];
        }
      } else {
        assert left == map[];
        assert c in keepStops ==> keepStops[c] && Some(keepStops[c]) == Some(true);
      }
    }

    /** The files of a job could not be written, or its start not announced: it leaves again. */
    method SetupFailed(c: ConvId, id: SubId, ghost s: State)
      requires Models(s) && lock.None? && RowOk(RowOf(c)) && id in RowOf(c).running && RowOf(c).phases[id].Spawning?
      modifies this`running, this`keepStops, this`phases
      ensures OnlyRow(c) && RowOf(c) == TaskStep(old(RowOf(c)), id, SetupFails, false)
      ensures Models(Step(s, Task(c, id, SetupFails)))
    {
      ghost var row := RowOf(c);
      Release(c, id);
      phases := phases[c := row.phases[id := Gone]];
      RowChanged(s, c);
      assert old(RowOf(c)) == RowAt(s, c);
      TaskRow(s, c, id, SetupFails);
    }

    /** The files of a job are written and its task created; no table changes. */
    ghost method SetupFinished(c: ConvId, id: SubId, s: State)
      requires Models(s) && RowOk(RowOf(c)) && id in RowOf(c).running && RowOf(c).phases[id].Spawning?
      modifies this`phases
      ensures OnlyRow(c) && RowOf(c) == TaskStep(old(RowOf(c)), id, SetupDone, lock.Some?)
      ensures Models(Step(s, Task(c, id, SetupDone)))
    {
      phases := phases[c := RowOf(c).phases[id := Driving]];
      RowChanged(s, c);
      assert old(RowOf(c)) == RowAt(s, c);
      TaskRow(s, c, id, SetupDone);
    }

    /** The last segment of a job: release, then publish unless silenced. */
    method Finish(c: ConvId, id: SubId, status: string, reachable: bool, ghost s: State)
      requires Models(s) && lock.None? && RowOk(RowOf(c))
      requires id in RowOf(c).running && RowOf(c).phases[id] == Finishing(status)
      modifies this
      ensures OnlyRow(c) && RowOf(c) == TaskStep(old(RowOf(c)), id, TaskOp.Finish(reachable), false)
      ensures published == old(published) +
        (match old(Publishes(RowOf(c), id, TaskOp.Finish(reachable), false))
         case Some(said) => [Wake(c, id, said)]
         case None => [])
      ensures Models(Step(s, Task(c, id, TaskOp.Finish(reachable))))
    {
      var job := running[c][id];
      ghost var row := RowOf(c);
      Release(c, id);
      phases := phases[c := row.phases[id := Gone]];
      assert RowOf(c) == TaskStep(old(RowOf(c)), id, TaskOp.Finish(reachable), false);
      RowChanged(s, c);
      assert old(RowOf(c)) == RowAt(s, c);
      TaskRow(s, c, id, TaskOp.Finish(reachable));
      hide Models, TaskStep, Step;
      if job.suppressWake || !reachable { return; }
      published := published + [Wake(c, id, status)];
    }

    /** Walks over the jobs in flight, under no lock but without an await. */
    method CancelConversation(c: ConvId, ghost s: State)
      requires Models(s) && lock.None?
      modifies this`running
      ensures OnlyRow(c) && RowOf(c) == Silenced(old(RowOf(c)))
      ensures Models(Step(s, Action.CancelConversation(c)))
    {
      SilenceAll(c);
      RowChanged(s, c);
      hide RowOf, Silenced;
      assert old(RowOf(c)) == RowAt(s, c);
      assert SetRow(s, c, RowOf(c)).(holder := lock) == Step(s, Action.CancelConversation(c));
    }

    method SilenceAll(c: ConvId)
      modifies this`running
      ensures OnlyRow(c) && RowOf(c) == Silenced(old(RowOf(c)))
    {
      if c !in running {
        assert Silenced(RowOf(c)).running == map[];
        return;
      }
      var jobs := running[c];
      var left := jobs.Keys;
      assert Sweep(jobs, left) == jobs;
      assert running == running[c := jobs];
      while left != {}
        invariant left <= jobs.Keys
        invariant running == old(running)[c := Sweep(jobs, left)]
        decreases |left|
      {
        var id :| id in left;
        left := left - {id};
        running := running[c := running[c][id := jobs[id].(suppressWake := true, cancelled := true)]];
        assert running[c] == Sweep(jobs, left);
      }
      assert RowOf(c).running == Silenced(old(RowOf(c))).running;
    }

    /** The time limit of a running task strikes. */
    method TimeOut(c: ConvId, id: SubId, ghost s: State)
      requires Models(s)
      requires id in RowOf(c).running && id in RowOf(c).phases && RowOf(c).phases[id].Driving?
      modifies this`running
      ensures OnlyRow(c) && RowOf(c) == TaskStep(old(RowOf(c)), id, TimesOut, lock.Some?)
      ensures Models(Step(s, Task(c, id, TimesOut)))
    {
      running := running[c := running[c][id := running[c][id].(timedOut := true, cancelled := true)]];
      RowChanged(s, c);
      assert old(RowOf(c)) == RowAt(s, c);
      TaskRow(s, c, id, TimesOut);
    }

    /** The loop of a running task ends or raises (then with "failed"); its status is fixed here. */
    method EndLoop(c: ConvId, id: SubId, loopStatus: string, ghost s: State) returns (status: string)
      requires Models(s)
      requires id in RowOf(c).running && id in RowOf(c).phases && RowOf(c).phases[id].Driving?
      modifies this`phases
      ensures OnlyRow(c) && RowOf(c) == TaskStep(old(RowOf(c)), id, LoopEnds(loopStatus), lock.Some?)
      ensures RowOf(c).phases[id] == Finishing(status)
      ensures status == if old(RowOf(c).running[id].suppressWake) then "cancelled"
                        else if old(RowOf(c).running[id].timedOut) then "timed_out" else Said(loopStatus)
      ensures Models(Step(s, Task(c, id, LoopEnds(loopStatus))))
    {
      status := TerminalStatus(running[c][id], loopStatus);
      phases := phases[c := phases[c][id := Finishing(status)]];
      RowChanged(s, c);
      assert old(RowOf(c)) == RowAt(s, c);
      TaskRow(s, c, id, LoopEnds(loopStatus));
    }

    /** A running task is cancelled from outside. */
    method CancelTask(c: ConvId, id: SubId, ghost s: State) returns (status: string)
      requires Models(s)
      requires id in RowOf(c).running && id in RowOf(c).phases && RowOf(c).phases[id].Driving?
      modifies this`running, this`phases
      ensures OnlyRow(c) && RowOf(c) == TaskStep(old(RowOf(c)), id, TaskCancelled, lock.Some?)
      ensures RowOf(c).phases[id] == Finishing(status)
      ensures Models(Step(s, Task(c, id, TaskCancelled)))
    {
      running := running[c := running[c][id := running[c][id].(suppressWake := true, cancelled := true)]];
      status := "cancelled";
      phases := phases[c := phases[c][id := Finishing(status)]];
      RowChanged(s, c);
      assert old(RowOf(c)) == RowAt(s, c);
      TaskRow(s, c, id, TaskCancelled);
    }
  }

  /** The jobs with all but those left silenced. */
  ghost function Sweep(jobs: map<SubId, Job>, left: set<SubId>): map<SubId, Job> {
    map id | id in jobs :: if id in left then jobs[id] else jobs[id].(suppressWake := true, cancelled := true)
  }
}
