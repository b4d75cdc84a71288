/** The tool calls of one assistant message run together, each as a task of its own. A task may raise: the arguments of
    its call are parsed before anything else, and the parser's own exceptions are not all caught. Then the run fails
    at once, and the other tasks are left to themselves. */
module ToolTasks {
  import opened Common
  import opened Messages
  import opened Session
  import opened RunLog

  /** A tool that is called raises, or returns a text (after its result hook). */
  datatype Outcome = ToolError(error: string) | ToolText(text: string)

  datatype ToolReply = NoSuchTool | Called(outcome: Outcome)

  /** Where the task of one tool call is: before its first event, announced, waiting for the tool, done, or ended by an
      exception of the argument parser. */
  datatype Pc =
    | Fresh
    | Announced
    | Running(outcome: Outcome)
    | Done(ok: bool, text: string, summary: string)
    | Raised(error: string)

  /** The JSON parser: the exception that escapes on a text, if one does. */
  type Parser = string -> Option<string>

  /** Absent arguments are not parsed. */
  function ParseError(parser: Parser, arguments: string): Option<string> {
    if arguments == "" then None else parser(arguments)
  }

  predicate IsOver(pc: Pc) {
    pc.Done? || pc.Raised?
  }

  predicate IsOpen(pc: Pc) {
    pc.Announced? || pc.Running?
  }

  function Stage(pc: Pc): nat {
    match pc
    case Fresh => 0
    case Announced => 1
    case Running(_) => 2
    case _ => 3
  }

  /** Where a task goes next: a call is done at once when the run is cancelled or the tool unknown, and a tool's
      answer is discarded when the run was cancelled while it ran. */
  function NextPc(parser: Parser, call: ToolCall, pc: Pc, cancelled: bool, reply: ToolReply): Pc {
    match pc
    case Fresh =>
      var error := ParseError(parser, call.arguments);
      if error.Some? then Raised(error.value) else Announced
    case Announced =>
      if cancelled then Done(false, "cancelled", "cancelled")
      else if reply.NoSuchTool? then Done(false, "unknown tool: " + call.name, "unknown tool: " + call.name)
      else Running(reply.outcome)
    case Running(ToolError(error)) => Done(false, error, error)
    case Running(ToolText(text)) =>
      if cancelled then Done(false, "cancelled", "cancelled") else Done(true, text, Take(text, 180))
    case _ => pc
  }

  function StepEvents(call: ToolCall, pc: Pc, next: Pc): seq<Event> {
    if next.Announced? then [ToolStarted(call.id, call.name)]
    else if next.Done? && !pc.Done? then [ToolFinished(call.id, next.ok, next.summary)]
    else []
  }

  function Remaining(pcs: seq<Pc>): nat {
    if pcs == [] then 0 else 3 - Stage(pcs[0]) + Remaining(pcs[1..])
  }

  lemma {:induction false} RemainingLess(pcs: seq<Pc>, i: nat, next: Pc)
    requires i < |pcs| && Stage(next) > Stage(pcs[i])
    ensures Remaining(pcs[i := next]) < Remaining(pcs)
  {
    if i > 0 {
      RemainingLess(pcs[1..], i - 1, next);
      assert pcs[i := next][1..] == pcs[1..][i - 1 := next];
    }
  }

  /** How many tasks of calls with this id have announced themselves and are not done. */
  function OpenTasks(calls: seq<ToolCall>, pcs: seq<Pc>, id: string): nat
    requires |calls| == |pcs|
  {
    if calls == [] then 0
    else (if IsOpen(pcs[0]) && calls[0].id == id then 1 else 0) + OpenTasks(calls[1..], pcs[1..], id)
  }

  lemma {:induction false} OpenTasksStep(calls: seq<ToolCall>, pcs: seq<Pc>, i: nat, next: Pc, id: string)
    requires |calls| == |pcs| && i < |pcs|
    ensures OpenTasks(calls, pcs[i := next], id)
         == OpenTasks(calls, pcs, id) - (if IsOpen(pcs[i]) && calls[i].id == id then 1 else 0)
            + (if IsOpen(next) && calls[i].id == id then 1 else 0)
  {
    hide IsOpen;
    if i > 0 {
      OpenTasksStep(calls[1..], pcs[1..], i - 1, next, id);
      assert pcs[i := next][1..] == pcs[1..][i - 1 := next];
    } else {
      assert pcs[i := next][1..] == pcs[1..];
    }
  }

  lemma {:induction false} NoneOpen(calls: seq<ToolCall>, pcs: seq<Pc>, id: string)
    requires |calls| == |pcs| && forall i :: 0 <= i < |pcs| ==> !IsOpen(pcs[i])
    ensures OpenTasks(calls, pcs, id) == 0
  {
    if calls != [] {
      NoneOpen(calls[1..], pcs[1..], id);
    }
  }

  // The run and its tasks

  /** What the run's handler of an exception emits. */
  function Handler(error: string, partial: string): seq<Event> {
    [ErrorEvent(error), MessageCompleted(partial, false), RunFinished("failed", NonEmpty(Some(error)))]
  }

  /** The run waits for all its tasks, or it has been failed by one and still has to emit these events. */
  datatype Main = Waiting | Failing(rest: seq<Event>)

  datatype Moment = Moment(pcs: seq<Pc>, main: Main, log: seq<Event>)

  /** The calls of one turn, and what their tasks and the run's handler work with. */
  datatype Batch = Batch(calls: seq<ToolCall>, parser: Parser, partial: string)

  /** One step: of a task, with the cancel flag and the tool's answer at that moment, or of the failed run. */
  datatype Act = OfTask(i: nat, cancelled: bool, reply: ToolReply) | OfRun

  /** A step that cannot be taken changes nothing. The first exception fails the run, later ones are lost. */
  function Advance(b: Batch, m: Moment, a: Act): Moment {
    match a
    case OfTask(i, cancelled, reply) =>
      if i < |m.pcs| && i < |b.calls| && !IsOver(m.pcs[i]) then
        var next := NextPc(b.parser, b.calls[i], m.pcs[i], cancelled, reply);
        Moment(m.pcs[i := next],
               if next.Raised? && m.main.Waiting? then Failing(Handler(next.error, b.partial)) else m.main,
               m.log + StepEvents(b.calls[i], m.pcs[i], next))
      else m
    case OfRun =>
      if m.main.Failing? && m.main.rest != [] then Moment(m.pcs, Failing(m.main.rest[1..]), m.log + [m.main.rest[0]])
      else m
  }

  function After(b: Batch, m: Moment, acts: seq<Act>): Moment {
    if acts == [] then m else Advance(b, After(b, m, acts[..|acts| - 1]), acts[|acts| - 1])
  }

  lemma {:induction false} LogGrows(b: Batch, m: Moment, acts: seq<Act>)
    ensures m.log <= After(b, m, acts).log
  {
    if acts != [] {
      LogGrows(b, m, acts[..|acts| - 1]);
    }
  }

  function Start(b: Batch, log: seq<Event>): Moment {
    Moment(seq(|b.calls|, _ => Fresh), Waiting, log)
  }

  lemma NoActs(b: Batch, m: Moment)
    ensures After(b, m, []) == m
  {}

  lemma AfterOneMore(b: Batch, m: Moment, acts: seq<Act>, a: Act)
    ensures After(b, m, acts + [a]) == Advance(b, After(b, m, acts), a)
  {
    assert (acts + [a])[..|acts|] == acts;
  }

  lemma {:induction false} AfterAppend(b: Batch, m: Moment, acts: seq<Act>, more: seq<Act>)
    ensures After(b, m, acts + more) == After(b, After(b, m, acts), more)
    decreases |more|
  {
    if more == [] {
      assert acts + more == acts;
      NoActs(b, After(b, m, acts));
    } else {
      hide Advance;
      var all := acts + more;
      AfterAppend(b, m, acts, more[..|more| - 1]);
      assert all[..|all| - 1] == acts + more[..|more| - 1];
    }
  }

  // While the run waits

  /** A call that has begun is announced, and the event of a finished one reports the text that goes into the
      conversation. */
  predicate Reported(call: ToolCall, pc: Pc, es: seq<Event>) {
    && (IsOpen(pc) || pc.Done? ==> ToolStarted(call.id, call.name) in es)
    && (pc.Done? ==>
          && pc.summary == (if pc.ok then Take(pc.text, 180) else pc.text)
          && ToolFinished(call.id, pc.ok, pc.summary) in es)
  }

  /** Every call is announced, and its text reported by an event. */
  ghost predicate TextsReported(calls: seq<ToolCall>, texts: seq<string>, es: seq<Event>)
    requires |calls| == |texts|
  {
    forall i :: 0 <= i < |calls| ==>
      && ToolStarted(calls[i].id, calls[i].name) in es
      && (|| ToolFinished(calls[i].id, true, Take(texts[i], 180)) in es
          || ToolFinished(calls[i].id, false, texts[i]) in es)
  }

  /** The calls open on the log are those of the tasks under way. */
  ghost predicate Gathering(start: seq<Event>, log: seq<Event>, calls: seq<ToolCall>, pcs: seq<Pc>)
    requires |calls| == |pcs|
  {
    Balanced(start) ==> forall id :: Bracketed(log, id) && OpenCount(log, id) == OpenTasks(calls, pcs, id)
  }

  lemma GatherStep(start: seq<Event>, log: seq<Event>, calls: seq<ToolCall>, pcs: seq<Pc>, i: nat, next: Pc)
    requires |calls| == |pcs| && i < |pcs| && !IsOver(pcs[i]) && Stage(next) > Stage(pcs[i])
    requires pcs[i].Fresh? ==> next.Announced? || next.Raised?
    requires !pcs[i].Fresh? ==> !next.Raised?
    requires Gathering(start, log, calls, pcs)
    ensures Gathering(start, log + StepEvents(calls[i], pcs[i], next), calls, pcs[i := next])
  {
    hide OpenTasks, OpenCount, Bracketed, Balanced;
    var es := StepEvents(calls[i], pcs[i], next);
    if es == [] {
      assert log + es == log;
    } else {
      assert es == [es[0]];
    }
    if Balanced(start) {
      forall id ensures Bracketed(log + es, id) && OpenCount(log + es, id) == OpenTasks(calls, pcs[i := next], id) {
        OpenTasksStep(calls, pcs, i, next, id);
        if es != [] {
          OneMoreEvent(log, es[0], id);
        }
      }
    }
  }

  /** What holds of one task: it is where its arguments let it be, and it is reported. */
  predicate TaskOk(b: Batch, call: ToolCall, pc: Pc, es: seq<Event>) {
    && (pc.Raised? ==> ParseError(b.parser, call.arguments) == Some(pc.error))
    && (IsOpen(pc) || pc.Done? ==> ParseError(b.parser, call.arguments).None?)
    && Reported(call, pc, es)
  }

  /** What holds of all tasks and the log. */
  ghost predicate Sound(b: Batch, start: seq<Event>, pcs: seq<Pc>, log: seq<Event>) {
    && |pcs| == |b.calls| && start <= log
    && (forall i :: 0 <= i < |pcs| ==> TaskOk(b, b.calls[i], pcs[i], log[|start|..]))
    && (forall i :: |start| <= i < |log| ==> !log[i].RunProgress?)
  }

  /** What holds in every history of a turn. A failed run has emitted so much of its handler of some exception. */
  ghost predicate Kept(b: Batch, start: seq<Event>, m: Moment) {
    && Sound(b, start, m.pcs, m.log)
    && (m.main.Waiting? ==>
          && (forall i :: 0 <= i < |m.pcs| ==> !m.pcs[i].Raised?)
          && Endings(m.log[|start|..]) == []
          && Gathering(start, m.log, b.calls, m.pcs))
    && (m.main.Failing? ==> exists error :: Failed(b, start, m, error))
  }

  ghost predicate Failed(b: Batch, start: seq<Event>, m: Moment, error: string)
    requires start <= m.log && m.main.Failing? && |m.pcs| == |b.calls|
  {
    && |m.main.rest| <= 3
    && var done := 3 - |m.main.rest|;
    && m.main.rest == Handler(error, b.partial)[done..]
    && Endings(m.log[|start|..]) == Endings(Handler(error, b.partial)[..done])
    && exists j :: 0 <= j < |m.pcs| && m.pcs[j] == Raised(error)
  }

  lemma NextPcAdvances(parser: Parser, call: ToolCall, pc: Pc, cancelled: bool, reply: ToolReply)
    requires !IsOver(pc)
    ensures var next := NextPc(parser, call, pc, cancelled, reply);
      && Stage(next) > Stage(pc)
      && (pc.Fresh? ==> next.Announced? || next.Raised?) && (!pc.Fresh? ==> !next.Raised? && !next.Announced?)
  {}

  lemma StartKept(b: Batch, start: seq<Event>)
    ensures Kept(b, start, Start(b, start))
  {
    var m := Start(b, start);
    assert start[|start|..] == [];
    forall id ensures OpenTasks(b.calls, m.pcs, id) == 0 {
      NoneOpen(b.calls, m.pcs, id);
    }
  }

  lemma TaskStep(b: Batch, call: ToolCall, pc: Pc, cancelled: bool, reply: ToolReply, es: seq<Event>)
    requires TaskOk(b, call, pc, es) && !IsOver(pc)
    ensures var next := NextPc(b.parser, call, pc, cancelled, reply);
      TaskOk(b, call, next, es + StepEvents(call, pc, next))
  {
    var next := NextPc(b.parser, call, pc, cancelled, reply);
    var more := StepEvents(call, pc, next);
    assert next.Announced? ==> more[0] == ToolStarted(call.id, call.name);
    assert next.Done? ==> more[0] == ToolFinished(call.id, next.ok, next.summary);
  }

  lemma TaskStays(b: Batch, call: ToolCall, pc: Pc, es: seq<Event>, more: seq<Event>)
    requires TaskOk(b, call, pc, es)
    ensures TaskOk(b, call, pc, es + more)
  {}

  lemma QuietStep(call: ToolCall, pc: Pc, next: Pc)
    ensures forall e :: e in StepEvents(call, pc, next) ==> !e.RunProgress? && !EndsRun(e)
  {}

  lemma AdvanceKept(b: Batch, start: seq<Event>, m: Moment, a: Act)
    requires Kept(b, start, m)
    ensures Kept(b, start, Advance(b, m, a))
  {
    match a {
      case OfTask(i, cancelled, reply) =>
        if i < |m.pcs| && !IsOver(m.pcs[i]) {
          TaskKept(b, start, m, i, cancelled, reply);
        }
      case OfRun =>
        if m.main.Failing? && m.main.rest != [] {
          RunKept(b, start, m);
        }
    }
  }

  lemma RunFailed(b: Batch, start: seq<Event>, m: Moment, error: string)
    requires |m.pcs| == |b.calls| && start <= m.log && m.main.Failing? && m.main.rest != []
    requires Failed(b, start, m, error)
    ensures Failed(b, start, Advance(b, m, OfRun), error) && !m.main.rest[0].RunProgress?
  {
    hide Endings;
    var h, done := Handler(error, b.partial), 3 - |m.main.rest|;
    var es, e := m.log[|start|..], m.main.rest[0];
    assert e == h[done] && (m.log + [e])[|start|..] == es + [e] && h[..done + 1] == h[..done] + [e];
    EndingsAppend(es, [e]);
    EndingsAppend(h[..done], [e]);
    assert m.main.rest[1..] == h[done + 1..];
  }

  lemma AllStay(b: Batch, pcs: seq<Pc>, es: seq<Event>, more: seq<Event>)
    requires |pcs| == |b.calls| && forall i :: 0 <= i < |pcs| ==> TaskOk(b, b.calls[i], pcs[i], es)
    ensures forall i :: 0 <= i < |pcs| ==> TaskOk(b, b.calls[i], pcs[i], es + more)
  {
    hide TaskOk;
    forall i | 0 <= i < |pcs| ensures TaskOk(b, b.calls[i], pcs[i], es + more) {
      TaskStays(b, b.calls[i], pcs[i], es, more);
    }
  }

  lemma SoundSnoc(b: Batch, start: seq<Event>, pcs: seq<Pc>, log: seq<Event>, e: Event)
    requires Sound(b, start, pcs, log) && !e.RunProgress?
    ensures Sound(b, start, pcs, log + [e])
  {
    hide TaskOk;
    AllStay(b, pcs, log[|start|..], [e]);
    assert (log + [e])[|start|..] == log[|start|..] + [e];
  }

  lemma RunKept(b: Batch, start: seq<Event>, m: Moment)
    requires Kept(b, start, m) && m.main.Failing? && m.main.rest != []
    ensures Kept(b, start, Advance(b, m, OfRun))
  {
    var error :| Failed(b, start, m, error);
    RunFailed(b, start, m, error);
    hide Failed, Sound;
    SoundSnoc(b, start, m.pcs, m.log, m.main.rest[0]);
  }

  lemma TaskKept(b: Batch, start: seq<Event>, m: Moment, i: nat, cancelled: bool, reply: ToolReply)
    requires Kept(b, start, m) && i < |m.pcs| && !IsOver(m.pcs[i])
    ensures Kept(b, start, Advance(b, m, OfTask(i, cancelled, reply)))
  {
    hide TaskOk, Gathering, Endings, NextPc, StepEvents, Stage, Failed;
    var call, pc, es := b.calls[i], m.pcs[i], m.log[|start|..];
    var next := NextPc(b.parser, call, pc, cancelled, reply);
    var more := StepEvents(call, pc, next);
    var m' := Advance(b, m, OfTask(i, cancelled, reply));
    assert m'.log[|start|..] == es + more;
    QuietStep(call, pc, next);
    NextPcAdvances(b.parser, call, pc, cancelled, reply);
    NoEndings(more);
    EndingsAppend(es, more);
    AllStay(b, m.pcs, es, more);
    TaskStep(b, call, pc, cancelled, reply, es);
    if m'.main.Waiting? {
      GatherStep(start, m.log, b.calls, m.pcs, i, next);
    } else if m.main.Waiting? {
      NoneYet(b, start, m', next.error, i);
    } else {
      var error :| Failed(b, start, m, error);
      StillFailed(b, start, m, m', error, es, more);
    }
  }

  lemma StillFailed(b: Batch, start: seq<Event>, m: Moment, m': Moment, error: string, es: seq<Event>, more: seq<Event>)
    requires |m.pcs| == |m'.pcs| == |b.calls| && start <= m.log && start <= m'.log
    requires m.main.Failing? && m'.main == m.main && Failed(b, start, m, error)
    requires es == m.log[|start|..] && m'.log[|start|..] == es + more && Endings(es + more) == Endings(es)
    requires forall j :: 0 <= j < |m.pcs| && IsOver(m.pcs[j]) ==> m'.pcs[j] == m.pcs[j]
    ensures Failed(b, start, m', error)
  {
    var j :| 0 <= j < |m.pcs| && m.pcs[j] == Raised(error);
    assert m'.pcs[j] == Raised(error);
  }

  lemma NoneYet(b: Batch, start: seq<Event>, m: Moment, error: string, i: nat)
    requires start <= m.log && |m.pcs| == |b.calls| && i < |m.pcs| && m.pcs[i] == Raised(error)
    requires m.main == Failing(Handler(error, b.partial)) && Endings(m.log[|start|..]) == []
    ensures Failed(b, start, m, error)
  {
    assert Handler(error, b.partial)[..0] == [];
  }

  lemma {:induction false} HistoryKept(b: Batch, start: seq<Event>, acts: seq<Act>)
    ensures Kept(b, start, After(b, Start(b, start), acts))
  {
    hide Kept, Advance;
    if acts == [] {
      StartKept(b, start);
    } else {
      HistoryKept(b, start, acts[..|acts| - 1]);
      AdvanceKept(b, start, After(b, Start(b, start), acts[..|acts| - 1]), acts[|acts| - 1]);
    }
  }

  // What one task does depends on its own steps alone

  /** The steps of one task. */
  function Own(acts: seq<Act>, i: nat): seq<Act> {
    if acts == [] then []
    else
      Own(acts[..|acts| - 1], i)
      + if acts[|acts| - 1].OfTask? && acts[|acts| - 1].i == i then [acts[|acts| - 1]] else []
  }

  /** Where a task is after these steps: it parses its arguments first, then calls its tool unless the run is cancelled,
      then passes on the answer, except that a text is discarded when the run has been cancelled meanwhile. */
  function Outcomes(error: Option<string>, call: ToolCall, own: seq<Act>): Pc
    requires forall k :: 0 <= k < |own| ==> own[k].OfTask?
  {
    var cancelled := Done(false, "cancelled", "cancelled");
    var unknown := "unknown tool: " + call.name;
    if own == [] then Fresh
    else if error.Some? then Raised(error.value)
    else if |own| == 1 then Announced
    else if own[1].cancelled then cancelled
    else
      match own[1].reply
      case NoSuchTool => Done(false, unknown, unknown)
      case Called(outcome) =>
        if |own| == 2 then Running(outcome)
        else
          match outcome
          case ToolError(e) => Done(false, e, e)
          case ToolText(text) => if own[2].cancelled then cancelled else Done(true, text, Take(text, 180))
  }

  lemma {:induction false} OwnAreTasks(acts: seq<Act>, i: nat)
    ensures forall k :: 0 <= k < |Own(acts, i)| ==> Own(acts, i)[k].OfTask? && Own(acts, i)[k].i == i
  {
    if acts != [] {
      OwnAreTasks(acts[..|acts| - 1], i);
    }
  }

  lemma OneMoreStep(parser: Parser, call: ToolCall, own: seq<Act>, a: Act)
    requires a.OfTask? && forall k :: 0 <= k < |own| ==> own[k].OfTask?
    ensures
      var pc := Outcomes(ParseError(parser, call.arguments), call, own);
      Outcomes(ParseError(parser, call.arguments), call, own + [a])
      == if IsOver(pc) then pc else NextPc(parser, call, pc, a.cancelled, a.reply)
  {
    hide Take;
    assert |own| >= 2 ==> (own + [a])[1] == own[1];
    assert |own| >= 3 ==> (own + [a])[2] == own[2];
  }

  /** However the tasks interleave, each is where its own steps have taken it. */
  lemma {:induction false} TasksAreIndependent(b: Batch, start: seq<Event>, acts: seq<Act>, i: nat)
    requires i < |b.calls|
    ensures forall k :: 0 <= k < |Own(acts, i)| ==> Own(acts, i)[k].OfTask?
    ensures
      var m := After(b, Start(b, start), acts);
      |m.pcs| == |b.calls|
      && m.pcs[i] == Outcomes(ParseError(b.parser, b.calls[i].arguments), b.calls[i], Own(acts, i))
    decreases |acts|
  {
    OwnAreTasks(acts, i);
    if acts != [] {
      hide NextPc, Outcomes, StepEvents, Handler;
      var front, a := acts[..|acts| - 1], acts[|acts| - 1];
      TasksAreIndependent(b, start, front, i);
      if a.OfTask? && a.i == i {
        OneMoreStep(b.parser, b.calls[i], Own(front, i), a);
      }
    }
  }

  // When all tasks are done

  predicate AllDone(pcs: seq<Pc>) {
    forall i :: 0 <= i < |pcs| ==> pcs[i].Done?
  }

  lemma WaitingAllDone(b: Batch, start: seq<Event>, m: Moment)
    requires Kept(b, start, m) && m.main.Waiting? && forall i :: 0 <= i < |m.pcs| ==> IsOver(m.pcs[i])
    ensures AllDone(m.pcs)
  {}

  lemma AllDoneParse(b: Batch, start: seq<Event>, m: Moment)
    requires Kept(b, start, m) && AllDone(m.pcs)
    ensures !Mixed(b.parser, b.calls)
  {
    hide Reported;
    forall i | 0 <= i < |b.calls| ensures ParseError(b.parser, b.calls[i].arguments).None? {
      assert TaskOk(b, b.calls[i], m.pcs[i], m.log[|start|..]);
    }
  }

  lemma KeptQuiet(b: Batch, start: seq<Event>, m: Moment)
    requires Kept(b, start, m)
    ensures start <= m.log && Requested(start, m.log, 0)
  {
    RequestedNone(start, m.log);
  }

  lemma KeptQuietSince(b: Batch, start: seq<Event>, log: seq<Event>, m: Moment)
    requires Kept(b, start, m) && start <= log <= m.log
    ensures Requested(log, m.log, 0)
  {
    RequestedNone(log, m.log);
  }

  /** Then the turn is complete: nothing has ended the run, every call is closed, and every text is reported. */
  lemma AllDoneCompletes(b: Batch, start: seq<Event>, m: Moment, texts: seq<string>)
    requires Kept(b, start, m) && m.main.Waiting? && AllDone(m.pcs)
    requires |texts| == |m.pcs| && forall i :: 0 <= i < |m.pcs| ==> texts[i] == m.pcs[i].text
    ensures Continues(start, m.log) && TextsReported(b.calls, texts, m.log[|start|..])
  {
    var es := m.log[|start|..];
    hide OpenCount, Bracketed, OpenTasks;
    forall id ensures OpenTasks(b.calls, m.pcs, id) == 0 {
      NoneOpen(b.calls, m.pcs, id);
    }
    forall i | |start| <= i < |m.log| ensures !EndsRun(m.log[i]) {
      assert es[i - |start|] == m.log[i];
      IsEnding(es, i - |start|);
    }
    forall i | 0 <= i < |b.calls|
      ensures ToolStarted(b.calls[i].id, b.calls[i].name) in es
      ensures ToolFinished(b.calls[i].id, true, Take(texts[i], 180)) in es
           || ToolFinished(b.calls[i].id, false, texts[i]) in es
    {
      assert TaskOk(b, b.calls[i], m.pcs[i], es);
    }
  }

  lemma {:induction false} IsEnding(es: seq<Event>, i: nat)
    requires i < |es| && Endings(es) == []
    ensures !EndsRun(es[i])
  {
    if i < |es| - 1 {
      IsEnding(es[..|es| - 1], i);
    }
  }

  // When the arguments of a call do not parse

  /** Some calls parse and some do not. */
  ghost predicate Mixed(parser: Parser, calls: seq<ToolCall>) {
    exists i, j :: 0 <= i < |calls| && 0 <= j < |calls|
      && ParseError(parser, calls[i].arguments).None? && ParseError(parser, calls[j].arguments).Some?
  }

  /** A failed run ends once in any case, and fails. */
  lemma FailedEndsOnce(b: Batch, start: seq<Event>, m: Moment)
    requires Kept(b, start, m) && m.main == Failing([])
    ensures start <= m.log && EndsOnce(start, m.log)
    ensures exists j :: 0 <= j < |b.calls| && FailedBy(b, m.log[|start|..], j)
  {
    var error :| Failed(b, start, m, error);
    var j :| 0 <= j < |m.pcs| && m.pcs[j] == Raised(error);
    assert TaskOk(b, b.calls[j], m.pcs[j], m.log[|start|..]);
    HandlerEndings(error, b.partial);
    hide Endings, Handler, TaskOk;
    assert FailedBy(b, m.log[|start|..], j);
  }

  lemma HandlerEndings(error: string, partial: string)
    ensures Endings(Handler(error, partial)[..3])
         == [MessageCompleted(partial, false), RunFinished("failed", NonEmpty(Some(error)))]
  {
    var h := Handler(error, partial);
    assert h[..3] == [h[0]] + [h[1], h[2]];
    EndingsAppend([h[0]], [h[1], h[2]]);
    NoEndings([h[0]]);
    EndingsOfTwo(h[1], h[2]);
  }

  /** The run was failed by the exception of this call's arguments, and its message is what had been noted. */
  predicate FailedBy(b: Batch, es: seq<Event>, j: nat)
    requires j < |b.calls|
  {
    var error := ParseError(b.parser, b.calls[j].arguments);
    && error.Some?
    && Endings(es) == [MessageCompleted(b.partial, false), RunFinished("failed", NonEmpty(error))]
  }

  /** No task that is left has arguments that parse. */
  predicate Mute(b: Batch, m: Moment) {
    |m.pcs| == |b.calls|
    && forall i :: 0 <= i < |m.pcs| && !IsOver(m.pcs[i]) ==>
         m.pcs[i].Fresh? && ParseError(b.parser, b.calls[i].arguments).Some?
  }

  /** A turn none of whose calls parses: nothing appears but what the handler of an exception emits. */
  ghost predicate Doomed(b: Batch, start: seq<Event>, m: Moment) {
    && Mute(b, m)
    && (m.main.Waiting? ==> m.log == start)
    && (m.main.Failing? ==> exists error :: HandledBy(start, b, m, error))
  }

  lemma DoomedStep(b: Batch, start: seq<Event>, m: Moment, a: Act)
    requires Doomed(b, start, m)
    ensures Doomed(b, start, Advance(b, m, a))
  {
    var m' := Advance(b, m, a);
    if m.main.Failing? {
      var error :| HandledBy(start, b, m, error);
      if a.OfRun? && m.main.rest != [] {
        OneMoreHandled(start, b, m, error);
      }
      assert HandledBy(start, b, m', error);
    } else if m'.main.Failing? {
      var error := m'.pcs[a.i].error;
      assert Handler(error, b.partial)[..0] == [];
      assert HandledBy(start, b, m', error);
    }
  }

  lemma OneFurther(start: seq<Event>, h: seq<Event>, k: nat, rest: seq<Event>, log: seq<Event>)
    requires k < |h| && rest == h[k..] && log == start + h[..k]
    ensures rest[1..] == h[k + 1..] && log + [rest[0]] == start + h[..k + 1]
  {
    assert h[..k + 1] == h[..k] + [h[k]];
  }

  lemma OneMoreHandled(start: seq<Event>, b: Batch, m: Moment, error: string)
    requires m.main.Failing? && m.main.rest != [] && HandledBy(start, b, m, error)
    ensures HandledBy(start, b, Advance(b, m, OfRun), error)
  {
    var h := Handler(error, b.partial);
    assert |h| == 3;
    hide Handler;
    OneFurther(start, h, 3 - |m.main.rest|, m.main.rest, m.log);
  }

  lemma {:induction false} NoneParses(b: Batch, start: seq<Event>, acts: seq<Act>)
    requires forall i :: 0 <= i < |b.calls| ==> ParseError(b.parser, b.calls[i].arguments).Some?
    ensures Doomed(b, start, After(b, Start(b, start), acts))
  {
    if acts != [] {
      hide Doomed, Advance;
      NoneParses(b, start, acts[..|acts| - 1]);
      DoomedStep(b, start, After(b, Start(b, start), acts[..|acts| - 1]), acts[|acts| - 1]);
    }
  }

  predicate HandledBy(start: seq<Event>, b: Batch, m: Moment, error: string)
    requires m.main.Failing?
  {
    && |m.main.rest| <= 3 && m.main.rest == Handler(error, b.partial)[3 - |m.main.rest|..]
    && m.log == start + Handler(error, b.partial)[..3 - |m.main.rest|]
  }

  /** The turn has gone well so far: when all tasks are done the run may go on, and when it has been failed by a task
      it has ended properly. */
  ghost predicate Proper(start: seq<Event>, m: Moment) {
    && (m.main.Waiting? && AllDone(m.pcs) ==> Continues(start, m.log))
    && (m.main == Failing([]) ==> Ends(start, m.log))
  }

  lemma HandledEnds(start: seq<Event>, log: seq<Event>, error: string, partial: string)
    requires Continues(start, log)
    ensures Ends(start, log + Handler(error, partial))
  {
    var h := Handler(error, partial);
    var mid := log + [h[0]];
    GrewEmit(log, h[0]);
    GrewContinues(log, mid, "");
    ContinuesTrans(start, log, mid);
    FinishEnds(start, mid, h[1], h[2]);
    assert log + h == mid + [h[1], h[2]];
  }

  lemma UnmixedIsProper(b: Batch, start: seq<Event>, acts: seq<Act>)
    requires !Mixed(b.parser, b.calls)
    ensures Proper(start, After(b, Start(b, start), acts))
  {
    hide After, Continues, Ends;
    var m := After(b, Start(b, start), acts);
    HistoryKept(b, start, acts);
    if m.main.Waiting? {
      if AllDone(m.pcs) {
        AllDoneCompletes(b, start, m, seq(|m.pcs|, i requires 0 <= i < |m.pcs| => m.pcs[i].text));
      }
    } else if m.main == Failing([]) {
      RaisedDoesNotParse(b, start, m);
      NoneParses(b, start, acts);
      var error :| HandledBy(start, b, m, error);
      assert Handler(error, b.partial)[..3] == Handler(error, b.partial);
      ContinuesRefl(start);
      HandledEnds(start, start, error, b.partial);
    }
  }

  lemma RaisedDoesNotParse(b: Batch, start: seq<Event>, m: Moment)
    requires Kept(b, start, m) && m.main.Failing?
    ensures exists j :: 0 <= j < |b.calls| && ParseError(b.parser, b.calls[j].arguments).Some?
  {
    var error :| Failed(b, start, m, error);
    var j :| 0 <= j < |m.pcs| && m.pcs[j] == Raised(error);
    assert TaskOk(b, b.calls[j], m.pcs[j], m.log[|start|..]);
  }

  /** Call i starts, call j raises, the run ends, and call i goes on: to an unknown tool. */
  function LeftBehind(i: nat, j: nat): seq<Act> {
    [OfTask(i, false, NoSuchTool), OfTask(j, false, NoSuchTool), OfRun, OfRun, OfRun, OfTask(i, false, NoSuchTool)]
  }

  lemma AfterSix(b: Batch, m: Moment, a: seq<Act>)
    requires |a| == 6
    ensures After(b, m, a)
         == Advance(b, Advance(b, Advance(b, Advance(b, Advance(b, Advance(b, m, a[0]), a[1]), a[2]), a[3]), a[4]),
              a[5])
  {
    hide Advance;
    assert After(b, m, a[..0]) == m;
    forall k: nat | k < 6 ensures After(b, m, a[..k + 1]) == Advance(b, After(b, m, a[..k]), a[k]) {
      assert a[..k + 1] == a[..k] + [a[k]];
      AfterOneMore(b, m, a[..k], a[k]);
    }
    assert a[..6] == a;
    assert After(b, m, a[..1]) == Advance(b, m, a[0]);
    assert After(b, m, a[..2]) == Advance(b, After(b, m, a[..1]), a[1]);
    assert After(b, m, a[..3]) == Advance(b, After(b, m, a[..2]), a[2]);
    assert After(b, m, a[..4]) == Advance(b, After(b, m, a[..3]), a[3]);
    assert After(b, m, a[..5]) == Advance(b, After(b, m, a[..4]), a[4]);
  }

  /** A failed run emits the three events it has left. */
  lemma RunEmits(b: Batch, m: Moment)
    requires m.main.Failing? && |m.main.rest| == 3
    ensures Advance(b, Advance(b, Advance(b, m, OfRun), OfRun), OfRun)
         == Moment(m.pcs, Failing([]), m.log + m.main.rest)
  {
    var h := m.main.rest;
    assert m.log + [h[0]] + [h[1]] + [h[2]] == m.log + h;
    assert h[1..][1..] == [h[2]] && [h[2]][1..] == [];
  }

  lemma LeftBehindLog(b: Batch, start: seq<Event>, i: nat, j: nat)
    requires i < |b.calls| && j < |b.calls|
    requires ParseError(b.parser, b.calls[i].arguments).None? && ParseError(b.parser, b.calls[j].arguments).Some?
    ensures
      var m := After(b, Start(b, start), LeftBehind(i, j));
      var error := ParseError(b.parser, b.calls[j].arguments).value;
      var unknown := "unknown tool: " + b.calls[i].name;
      && m.main == Failing([])
      && m.log == start + [ToolStarted(b.calls[i].id, b.calls[i].name)] + Handler(error, b.partial)
                + [ToolFinished(b.calls[i].id, false, unknown)]
  {
    var acts := LeftBehind(i, j);
    AfterSix(b, Start(b, start), acts);
    var m1 := Advance(b, Start(b, start), acts[0]);
    assert m1.pcs[i].Announced? && m1.log == start + [ToolStarted(b.calls[i].id, b.calls[i].name)];
    var m2 := Advance(b, m1, acts[1]);
    assert m2.main == Failing(Handler(ParseError(b.parser, b.calls[j].arguments).value, b.partial));
    assert m2.pcs[i].Announced? && m2.log == m1.log + [] == m1.log;
    RunEmits(b, m2);
    hide After, Start;
  }

  /** A turn goes well under every interleaving, and whatever its tools answer, exactly when it does not mix calls that
      parse with calls that do not. */
  lemma ProperExactly(b: Batch, start: seq<Event>)
    ensures (forall acts :: Proper(start, After(b, Start(b, start), acts))) <==> !Mixed(b.parser, b.calls)
  {
    hide After, Proper;
    if Mixed(b.parser, b.calls) {
      var acts := MixedFails(b, start, start);
      ImproperIs(start, After(b, Start(b, start), acts));
    } else {
      forall acts ensures Proper(start, After(b, Start(b, start), acts)) {
        UnmixedIsProper(b, start, acts);
      }
    }
  }

  /** A mixed turn of a run that has gone well so far: some interleaving of it does not end the run properly. */
  lemma MixedFails(b: Batch, log: seq<Event>, start: seq<Event>) returns (acts: seq<Act>)
    requires Mixed(b.parser, b.calls)
    ensures After(b, Start(b, start), acts).main == Failing([]) && !Ends(log, After(b, Start(b, start), acts).log)
  {
    hide After, Start;
    var i, j :| 0 <= i < |b.calls| && 0 <= j < |b.calls|
      && ParseError(b.parser, b.calls[i].arguments).None? && ParseError(b.parser, b.calls[j].arguments).Some?;
    acts := LeftBehind(i, j);
    LeftBehindLog(b, start, i, j);
  }

  lemma ImproperIs(start: seq<Event>, m: Moment)
    requires m.main == Failing([]) && !Ends(start, m.log)
    ensures !Proper(start, m)
  {}

  /** And then it never goes well again, whatever follows. */
  lemma ImproperForever(start: seq<Event>, log: seq<Event>, more: seq<Event>)
    requires EndsOnce(start, log) && !Ends(start, log)
    ensures !Ends(start, log + more)
  {
    hide Ends;
    if Ends(start, log + more) {
      NothingFollows(start, log, more);
    }
  }

  lemma NothingFollows(start: seq<Event>, log: seq<Event>, more: seq<Event>)
    requires EndsOnce(start, log) && Ends(start, log + more)
    ensures log + more == log
  {
    hide Endings;
    EndsIsOnce(start, log + more);
    assert (log + more)[|start|..] == log[|start|..] + more;
    EndingsAppend(log[|start|..], more);
    if more != [] {
      LastEnding(more);
    }
  }

  lemma LastEnding(es: seq<Event>)
    requires es != [] && EndsRun(es[|es| - 1])
    ensures Endings(es) != []
  {}

  /** Two calls: the first tool is called, then the arguments of the second do not parse. */
  lemma FirstRunsSecondRaises(b: Batch, first: ToolCall, second: ToolCall, error: string, outcome: Outcome)
    requires b.calls == [first, second]
    requires ParseError(b.parser, first.arguments).None? && ParseError(b.parser, second.arguments) == Some(error)
    ensures
      var step := OfTask(0, false, Called(outcome));
      var started := [ToolStarted(first.id, first.name)];
      Advance(b, Advance(b, Advance(b, Start(b, []), step), step), OfTask(1, false, NoSuchTool))
      == Moment([Running(outcome), Raised(error)], Failing(Handler(error, b.partial)), started)
  {
    hide Handler;
    var step := OfTask(0, false, Called(outcome));
    var started := [ToolStarted(first.id, first.name)];
    assert Start(b, []) == Moment([Fresh, Fresh], Waiting, []);
    assert Advance(b, Start(b, []), step) == Moment([Announced, Fresh], Waiting, started);
    assert Advance(b, Moment([Announced, Fresh], Waiting, started), step)
        == Moment([Running(outcome), Fresh], Waiting, started);
  }

  /** The first tool is then open when the run has ended, and its own end comes afterwards. */
  lemma FirstIsAbandoned(b: Batch, first: ToolCall, second: ToolCall, error: string, text: string)
    requires b.calls == [first, second]
    requires ParseError(b.parser, first.arguments).None? && ParseError(b.parser, second.arguments) == Some(error)
    ensures
      var step := OfTask(0, false, Called(ToolText(text)));
      var acts := [step, step, OfTask(1, false, NoSuchTool), OfRun, OfRun, OfRun];
      var log := [ToolStarted(first.id, first.name)] + Handler(error, b.partial);
      && After(b, Start(b, []), acts).log == log
      && After(b, Start(b, []), acts + [step]).log == log + [ToolFinished(first.id, true, Take(text, 180))]
  {
    var step := OfTask(0, false, Called(ToolText(text)));
    var acts := [step, step, OfTask(1, false, NoSuchTool), OfRun, OfRun, OfRun];
    var h, started := Handler(error, b.partial), [ToolStarted(first.id, first.name)];
    var pcs := [Running(ToolText(text)), Raised(error)];
    AfterSix(b, Start(b, []), acts);
    AfterOneMore(b, Start(b, []), acts, step);
    FirstRunsSecondRaises(b, first, second, error, ToolText(text));
    assert |h| == 3;
    hide Handler, After, Take, Start;
    RunEmits(b, Moment(pcs, Failing(h), started));
    assert Advance(b, Moment(pcs, Failing([]), started + h), step).log
        == started + h + [ToolFinished(first.id, true, Take(text, 180))];
  }

  /** A parser from which an exception escapes on one text, an object with a number of too many digits. */
  function Refusing(long: string): Parser {
    raw => if raw == long then Some("too many digits") else None
  }

  /** For example: one reply with two calls, of which the parser refuses the second. */
  lemma AbandonedCall(long: string)
    requires long != "" && long != "{}"
    ensures
      var parser := Refusing(long);
      var b := Batch([ToolCall("a", "web_fetch", "{}"), ToolCall("b", "web_fetch", long)], parser, "");
      var step := OfTask(0, false, Called(ToolText("page")));
      var acts := [step, step, OfTask(1, false, NoSuchTool), OfRun, OfRun, OfRun];
      var log := [ToolStarted("a", "web_fetch")] + Handler("too many digits", "");
      && After(b, Start(b, []), acts).log == log && !Ends([], log)
      && After(b, Start(b, []), acts + [step]).log == log + [ToolFinished("a", true, "page")]
      && !Ends([], log + [ToolFinished("a", true, "page")])
  {
    var parser := Refusing(long);
    NeverClosed("a", "web_fetch", Handler("too many digits", ""));
    hide Handler, After, Start;
    var first, second := ToolCall("a", "web_fetch", "{}"), ToolCall("b", "web_fetch", long);
    FirstIsAbandoned(Batch([first, second], parser, ""), first, second, "too many digits", "page");
  }

  lemma NeverClosed(id: string, name: string, es: seq<Event>)
    requires AllNeutral(es)
    ensures !Ends([], [ToolStarted(id, name)] + es)
  {
    var log := [ToolStarted(id, name)];
    assert log[..0] == [] && OpenCount(log, id) == 1;
    NeutralKeepsCount(log, es, id);
    assert Balanced([]);
  }

  lemma {:induction false} NeutralKeepsCount(log: seq<Event>, es: seq<Event>, id: string)
    requires AllNeutral(es)
    ensures OpenCount(log + es, id) == OpenCount(log, id)
    decreases |es|
  {
    if es == [] {
      assert log + es == log;
    } else {
      var front := es[..|es| - 1];
      NeutralKeepsCount(log, front, id);
      assert log + es == (log + front) + [es[|es| - 1]];
      OneMoreEvent(log + front, es[|es| - 1], id);
    }
  }
}
