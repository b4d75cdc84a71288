/** From the engine's event log to the database and to the screen: what a run that has ended leaves behind. */
module EndToEnd {
  import opened Common
  import opened RunLog
  import E = Session
  import S = Store
  import P = Persist
  import R = Readers
  import T = ToolTasks
  import M = Messages
  import G = Engine

  // The database

  /** What the persist consumer makes of an event of the engine. */
  function Payload(e: E.Event): S.Payload {
    match e
    case MessageCompleted(content, _) => S.Completed(content)
    case RunFinished(status, _) => S.Finished(status)
    case _ => S.OtherEvent
  }

  /** The events of a run as they are published: numbered from one. */
  function Published(run: string, payloads: seq<S.Payload>): seq<S.Event> {
    if payloads == [] then []
    else Published(run, payloads[..|payloads| - 1]) + [S.Event(run, |payloads|, payloads[|payloads| - 1])]
  }

  /** Events that touch neither a run's answer nor its slot: what the engine logs while the run goes on, and what
      is published beside it, the start of the run and announcements of subagents. */
  predicate Ordinary(payload: S.Payload) {
    payload.OtherEvent? || payload.RunStarted? || payload.SubagentStarted?
  }

  /** The log of the engine with other ordinary events mixed in. */
  predicate Mixes(payloads: seq<S.Payload>, log: seq<E.Event>)
    decreases |payloads|
  {
    if payloads == [] then log == []
    else
      var front, last := payloads[..|payloads| - 1], payloads[|payloads| - 1];
      || (Ordinary(last) && Mixes(front, log))
      || (log != [] && last == Payload(log[|log| - 1]) && Mixes(front, log[..|log| - 1]))
  }

  /** These are the events that end a run, or the first of them. */
  predicate IsEndPrefix(es: seq<E.Event>) {
    es == [] || (|es| == 1 && es[0].MessageCompleted?) || IsEnd(es)
  }

  /** n events of the run are in the journal, and it is under way. */
  ghost predicate UnderWay(w: P.World, w': P.World, run: string, n: nat)
    requires run in w.db.runs
  {
    && run in w'.db.runs && w'.db.runs[run].(status := "") == w.db.runs[run].(status := "")
    && run !in w'.db.answers && w'.db.convs == w.db.convs && w'.cleared == w.cleared
    && NoneAbove(w', run, n)
  }

  ghost predicate NoneAbove(w: P.World, run: string, n: nat) {
    forall k: int :: k > n ==> (run, k) !in w.db.journal
  }

  /** Its message is complete, and otherwise it is as before. */
  ghost predicate Answering(w: P.World, w': P.World, run: string, n: nat, answer: string)
    requires run in w.db.runs
  {
    && run in w'.db.runs && w'.db.runs[run].(status := "") == w.db.runs[run].(status := "")
    && P.AnswerOf(w'.db, run) == Some(answer) && w'.db.convs == w.db.convs && w'.cleared == w.cleared
    && NoneAbove(w', run, n)
  }

  /** The run has the status and the answer, and not the slot; the callback went out if it had it. */
  ghost predicate Recorded(w: P.World, w': P.World, run: string, status: string, answer: string)
    requires run in w.db.runs
  {
    && run in w'.db.runs && w'.db.runs[run] == w.db.runs[run].(status := status)
    && P.AnswerOf(w'.db, run) == Some(answer)
    && w'.db.convs == S.Clear(w.db, w.db.runs[run].conv, run).convs
    && w'.cleared == w.cleared + if S.Holds(w.db, w.db.runs[run].conv, run) then [w.db.runs[run].conv] else []
  }

  /** What the database says once n events of the run have been handled, these among them ending it. */
  ghost predicate Reflects(w: P.World, w': P.World, run: string, n: nat, ends: seq<E.Event>)
    requires run in w.db.runs && IsEndPrefix(ends)
  {
    if ends == [] then UnderWay(w, w', run, n)
    else if |ends| == 1 then Answering(w, w', run, n, ends[0].content)
    else Recorded(w, w', run, ends[1].status, ends[0].content) && NoneAbove(w', run, n)
  }

  lemma OrdinaryEvent(w: P.World, w': P.World, run: string, n: nat, payload: S.Payload, ends: seq<E.Event>)
    requires run != "" && run in w.db.runs && IsEndPrefix(ends) && Reflects(w, w', run, n, ends) && Ordinary(payload)
    ensures Reflects(w, P.Handled(w', S.Event(run, n + 1, payload)), run, n + 1, ends)
  {
    JournalGrows(w', run, n, payload);
    OrdinaryChanges(w', S.Event(run, n + 1, payload));
  }

  /** An ordinary event creates a child at most, and takes a queued run to running. */
  lemma OrdinaryChanges(w: P.World, ev: S.Event)
    requires ev.run in w.db.runs && Ordinary(ev.payload)
    ensures
      var w' := P.Handled(w, ev);
      && ev.run in w'.db.runs && w'.db.runs[ev.run].(status := "") == w.db.runs[ev.run].(status := "")
      && (w.db.runs[ev.run].status != S.QUEUED ==> w'.db.runs[ev.run] == w.db.runs[ev.run])
      && w'.db.answers == w.db.answers && w'.db.convs == w.db.convs && w'.cleared == w.cleared
  {}

  lemma JournalGrows(w: P.World, run: string, n: nat, payload: S.Payload)
    requires NoneAbove(w, run, n)
    ensures NoneAbove(P.Handled(w, S.Event(run, n + 1, payload)), run, n + 1)
  {}

  lemma EndingEvent(w: P.World, w': P.World, run: string, n: nat, e: E.Event, ends: seq<E.Event>)
    requires run != "" && run in w.db.runs && w.db.runs[run].kind.Main?
    requires EndsRun(e) && IsEndPrefix(ends) && IsEndPrefix(ends + [e]) && Reflects(w, w', run, n, ends)
    ensures Reflects(w, P.Handled(w', S.Event(run, n + 1, Payload(e))), run, n + 1, ends + [e])
  {
    JournalGrows(w', run, n, Payload(e));
    assert (run, n + 1) !in w'.db.journal;
    if ends == [] {
      assert (ends + [e])[0] == e;
      Completes(w', S.Event(run, n + 1, Payload(e)));
    } else {
      assert (ends + [e])[1] == e;
      Finishes(w', S.Event(run, n + 1, Payload(e)));
    }
  }

  lemma Completes(w: P.World, ev: S.Event)
    requires ev.run != "" && ev.run in w.db.runs && w.db.runs[ev.run].kind.Main? && ev.run !in w.db.answers
    requires ev.number > 0 && !P.Inserted(w.db, ev) && ev.payload.Completed?
    ensures
      var w' := P.Handled(w, ev);
      && ev.run in w'.db.runs && w'.db.runs[ev.run] == w.db.runs[ev.run]
      && P.AnswerOf(w'.db, ev.run) == Some(ev.payload.content) && w'.db.convs == w.db.convs && w'.cleared == w.cleared
  {}

  lemma Finishes(w: P.World, ev: S.Event)
    requires ev.run != "" && ev.run in w.db.runs && ev.number > 0 && !P.Inserted(w.db, ev)
    requires ev.payload.Finished? && ev.payload.status != ""
    ensures
      var w' := P.Handled(w, ev);
      && ev.run in w'.db.runs && w'.db.runs[ev.run] == w.db.runs[ev.run].(status := ev.payload.status)
      && w'.db.answers == w.db.answers && w'.db.convs == S.Clear(w.db, w.db.runs[ev.run].conv, ev.run).convs
      && w'.cleared
         == w.cleared + if S.Holds(w.db, w.db.runs[ev.run].conv, ev.run) then [w.db.runs[ev.run].conv] else []
  {}

  lemma HandleOneMore(w: P.World, evs: seq<S.Event>, ev: S.Event)
    ensures P.HandleAll(w, evs + [ev]) == P.Handled(P.HandleAll(w, evs), ev)
  {
    assert (evs + [ev])[..|evs|] == evs;
  }

  lemma NextEvent(w: P.World, run: string, payloads: seq<S.Payload>)
    requires payloads != []
    ensures
      var n := |payloads| - 1;
      P.HandleAll(w, Published(run, payloads))
      == P.Handled(P.HandleAll(w, Published(run, payloads[..n])), S.Event(run, n + 1, payloads[n]))
  {
    hide P.Handled;
    var n := |payloads| - 1;
    HandleOneMore(w, Published(run, payloads[..n]), S.Event(run, n + 1, payloads[n]));
  }

  lemma NothingPublished(w: P.World, run: string)
    ensures P.HandleAll(w, Published(run, [])) == w
  {}

  /** However the events of a run are mixed with others, the database says how far it has come. */
  lemma {:induction false} MixReflected(w: P.World, run: string, log: seq<E.Event>, payloads: seq<S.Payload>)
    requires run != "" && run in w.db.runs && w.db.runs[run].kind.Main? && UnderWay(w, w, run, 0)
    requires Mixes(payloads, log) && IsEndPrefix(Endings(log))
    ensures Reflects(w, P.HandleAll(w, Published(run, payloads)), run, |payloads|, Endings(log))
    decreases |payloads|
  {
    hide UnderWay, P.Handled, P.HandleAll, Published, Ordinary, Reflects, IsEndPrefix, Payload;
    if payloads == [] {
      NothingPublished(w, run);
      NothingReflected(w, run);
    } else {
      var n := |payloads| - 1;
      var front, last := payloads[..n], payloads[n];
      NextEvent(w, run, payloads);
      if Ordinary(last) && Mixes(front, log) {
        MixReflected(w, run, log, front);
        OrdinaryEvent(w, P.HandleAll(w, Published(run, front)), run, n, last, Endings(log));
      } else {
        var before, e := log[..|log| - 1], log[|log| - 1];
        PrefixOfEnd(Endings(before), e);
        MixReflected(w, run, before, front);
        if EndsRun(e) {
          EndingEvent(w, P.HandleAll(w, Published(run, front)), run, n, e, Endings(before));
        } else {
          OthersAreOrdinary(e);
          OrdinaryEvent(w, P.HandleAll(w, Published(run, front)), run, n, last, Endings(before));
        }
      }
    }
  }

  lemma NothingReflected(w: P.World, run: string)
    requires run in w.db.runs && UnderWay(w, w, run, 0)
    ensures IsEndPrefix([]) && Reflects(w, w, run, 0, [])
  {}

  lemma PrefixOfEnd(ends: seq<E.Event>, e: E.Event)
    ensures IsEndPrefix(ends + [e]) ==> IsEndPrefix(ends)
    ensures ends + [] == ends
  {
    if IsEndPrefix(ends + [e]) && |ends| == 1 {
      assert (ends + [e])[0] == ends[0];
    }
  }

  lemma OthersAreOrdinary(e: E.Event)
    requires !EndsRun(e)
    ensures Ordinary(Payload(e))
  {}

  /** A run that has ended once is recorded with its own status and its one message, and its slot is free, even if tool
      calls it left behind went on. */
  lemma EndedRunIsRecorded(w: P.World, run: string, log: seq<E.Event>, payloads: seq<S.Payload>)
    requires run != "" && run in w.db.runs && w.db.runs[run].kind.Main?
    requires run !in w.db.answers && forall k: int :: k > 0 ==> (run, k) !in w.db.journal
    requires EndsOnce([], log) && Mixes(payloads, log)
    ensures Recorded(w, P.HandleAll(w, Published(run, payloads)), run, Endings(log)[1].status, Endings(log)[0].content)
  {
    hide Recorded, P.Handled, P.HandleAll, Published, Ordinary, Mixes;
    assert log[0..] == log;
    MixReflected(w, run, log, payloads);
  }

  /** However often the events of the run are delivered again on the way. */
  lemma EndedRunIsRecordedOnce(w: P.World, run: string, log: seq<E.Event>, payloads: seq<S.Payload>,
      deliveries: seq<S.Event>)
    requires run != "" && run in w.db.runs && w.db.runs[run].kind.Main?
    requires run !in w.db.answers && forall k: int :: k > 0 ==> (run, k) !in w.db.journal
    requires EndsOnce([], log) && Mixes(payloads, log)
    requires P.Settled(w.db) && P.IdenticalRedeliveries(w, deliveries)
    requires P.WithoutRedeliveries(w, deliveries) == Published(run, payloads)
    ensures Recorded(w, P.HandleAll(w, deliveries), run, Endings(log)[1].status, Endings(log)[0].content)
  {
    hide Endings, Recorded, Mixes;
    P.AtLeastOnceIsExactlyOnce(w, deliveries);
    EndedRunIsRecorded(w, run, log, payloads);
  }

  lemma {:induction false} PublishedAt(run: string, payloads: seq<S.Payload>, ev: S.Event)
    requires ev in Published(run, payloads)
    ensures ev.run == run && 1 <= ev.number <= |payloads| && ev.payload == payloads[ev.number - 1]
  {
    var front, last := payloads[..|payloads| - 1], payloads[|payloads| - 1];
    if ev in Published(run, front) {
      PublishedAt(run, front, ev);
    }
  }

  /** Every end event in the mix is one of the log. */
  lemma {:induction false} MixedEnds(payloads: seq<S.Payload>, log: seq<E.Event>, i: nat)
    requires Mixes(payloads, log) && i < |payloads| && payloads[i].Finished?
    ensures exists j :: 0 <= j < |Endings(log)| && Payload(Endings(log)[j]) == payloads[i]
    decreases |payloads|
  {
    var front, last := payloads[..|payloads| - 1], payloads[|payloads| - 1];
    if Ordinary(last) && Mixes(front, log) {
      MixedEnds(front, log, i);
    } else {
      var before := log[..|log| - 1];
      if i < |front| {
        MixedEnds(front, before, i);
        var j :| 0 <= j < |Endings(before)| && Payload(Endings(before)[j]) == payloads[i];
        assert Endings(log)[j] == Endings(before)[j];
      } else {
        assert Endings(log)[|Endings(before)|] == log[|log| - 1];
      }
    }
  }

  /** While the events of such a run are delivered, in whatever repetition, its status never goes back. */
  lemma EndedRunGoesForward(w: P.World, run: string, log: seq<E.Event>, payloads: seq<S.Payload>,
      deliveries: seq<S.Event>, i: nat, j: nat)
    requires run != "" && run in w.db.runs && EndsOnce([], log) && Mixes(payloads, log)
    requires P.WithoutRedeliveries(w, deliveries) == Published(run, payloads) && i <= j <= |deliveries|
    ensures run in P.HandleAll(w, deliveries[..i]).db.runs && run in P.HandleAll(w, deliveries[..j]).db.runs
    ensures P.Rank(P.HandleAll(w, deliveries[..i]).db.runs[run].status)
         <= P.Rank(P.HandleAll(w, deliveries[..j]).db.runs[run].status)
  {
    hide P.HandleAll, P.WithoutRedeliveries, P.Rank, Published, Mixes, Endings;
    assert log[0..] == log;
    forall ev | ev in Published(run, payloads) && ev.payload.Finished? ensures S.Terminal(ev.payload.status) {
      PublishedAt(run, payloads, ev);
      MixedEnds(payloads, log, ev.number - 1);
    }
    P.StatusNeverFalls(w, deliveries, run, i, j);
  }

  // The screen

  /** What the client makes of an event of the engine; the log keeps no arguments of tool calls. */
  function Shown(e: E.Event): R.Body {
    match e
    case RunProgress(_) => R.Progress(Some("thinking"))
    case ReasoningDelta(delta) => R.ReasoningDelta(delta)
    case TextDelta(delta) => R.TextDelta(delta)
    case ToolStarted(id, name) => R.ToolStarted(id, name, "")
    case ToolFinished(id, ok, summary) => R.ToolFinished(id, ok, summary)
    case ErrorEvent(message) => R.Problem(message)
    case MessageCompleted(content, _) => R.Completed(Some(content))
    case RunFinished(status, error) => R.RunFinished(status, if error.Some? then error.value else "")
    case _ => R.Other
  }

  /** The client sees the engine's events in order, with others it does not show mixed in. */
  predicate Mirrors(evs: seq<R.REvent>, log: seq<E.Event>)
    decreases |evs|
  {
    if evs == [] then log == []
    else
      var front, last := evs[..|evs| - 1], evs[|evs| - 1];
      || (last.body.Other? && Mirrors(front, log))
      || (log != [] && last.body == Shown(log[|log| - 1]) && Mirrors(front, log[..|log| - 1]))
  }

  /** Every tool shown as running is open on the log. */
  ghost predicate RunningAreOpen(tools: seq<R.ToolInfo>, log: seq<E.Event>) {
    forall i :: 0 <= i < |tools| && !tools[i].done ==> OpenCount(log, tools[i].id) >= 1
  }

  lemma ReducedAreOpen(live: R.Live, ev: R.REvent, log: seq<E.Event>, e: E.Event)
    requires ev.body == Shown(e) && RunningAreOpen(live.tools, log)
    requires e.ToolStarted? ==> OpenCount(log, e.id) >= 0
    ensures RunningAreOpen(R.Reduce(live, ev).tools, log + [e])
  {
    var tools := R.Reduce(live, ev).tools;
    forall i | 0 <= i < |tools| && !tools[i].done ensures OpenCount(log + [e], tools[i].id) >= 1 {
      OneMoreEvent(log, e, tools[i].id);
      if i < |live.tools| {
        assert tools[i].id == live.tools[i].id;
      }
    }
  }

  lemma {:induction false} FoldedAreOpen(live: R.Live, evs: seq<R.REvent>, log: seq<E.Event>)
    requires live.tools == [] && Mirrors(evs, log) && forall id :: Bracketed(log, id)
    ensures RunningAreOpen(R.Fold(live, evs).tools, log)
    decreases |evs|
  {
    hide R.Reduce, R.Fold, RunningAreOpen, OpenCount;
    if evs == [] {
      NoneRunning(live, log);
    } else {
      var front, last := evs[..|evs| - 1], evs[|evs| - 1];
      R.FoldLast(live, evs);
      if last.body.Other? && Mirrors(front, log) {
        FoldedAreOpen(live, front, log);
        OtherChangesNothing(R.Fold(live, front), last);
      } else {
        var before, e := log[..|log| - 1], log[|log| - 1];
        assert log == before + [e];
        forall id ensures Bracketed(before, id) && (e.ToolStarted? ==> OpenCount(before, id) >= 0) {
          OpenOrNone(before, e, id);
        }
        FoldedAreOpen(live, front, before);
        ReducedAreOpen(R.Fold(live, front), last, before, e);
      }
    }
  }

  lemma NoneRunning(live: R.Live, log: seq<E.Event>)
    requires live.tools == []
    ensures RunningAreOpen(R.Fold(live, []).tools, log)
  {}

  lemma OtherChangesNothing(live: R.Live, ev: R.REvent)
    requires ev.body.Other?
    ensures R.Reduce(live, ev) == live
  {}

  lemma OpenOrNone(log: seq<E.Event>, e: E.Event, id: string)
    requires Bracketed(log + [e], id)
    ensures Bracketed(log, id) && OpenCount(log, id) >= 0
  {
    OneMoreEvent(log, e, id);
  }

  /** The text after message.completed is its content, whatever came before. */
  lemma {:induction false} TextIsMessage(live: R.Live, evs: seq<R.REvent>, log: seq<E.Event>)
    requires Mirrors(evs, log) && log != [] && log[|log| - 1].MessageCompleted?
    ensures R.Fold(live, evs).text == log[|log| - 1].content
    decreases |evs|
  {
    R.FoldLast(live, evs);
    var front, last := evs[..|evs| - 1], evs[|evs| - 1];
    if last.body.Other? && Mirrors(front, log) {
      TextIsMessage(live, front, log);
    }
  }

  lemma {:induction false} StatusIsFinal(live: R.Live, evs: seq<R.REvent>, log: seq<E.Event>)
    requires Mirrors(evs, log) && |log| >= 2 && log[|log| - 1].RunFinished? && log[|log| - 2].MessageCompleted?
    ensures R.Fold(live, evs).status == log[|log| - 1].status && R.Fold(live, evs).text == log[|log| - 2].content
    decreases |evs|
  {
    R.FoldLast(live, evs);
    var front, last := evs[..|evs| - 1], evs[|evs| - 1];
    if last.body.Other? && Mirrors(front, log) {
      StatusIsFinal(live, front, log);
    } else {
      TextIsMessage(live, front, log[..|log| - 1]);
    }
  }

  /** While a run goes on, a client shows the text and the reasoning the engine has streamed so far. */
  lemma {:induction false} StreamIsShown(live: R.Live, evs: seq<R.REvent>, log: seq<E.Event>)
    requires Mirrors(evs, log) && forall i :: 0 <= i < |log| ==> !EndsRun(log[i])
    ensures R.Fold(live, evs).text == live.text + E.TextOf(log)
    ensures R.Fold(live, evs).reasoning == live.reasoning + G.ReasoningOf(log)
    decreases |evs|
  {
    if evs != [] {
      R.FoldLast(live, evs);
      var front, last := evs[..|evs| - 1], evs[|evs| - 1];
      if last.body.Other? && Mirrors(front, log) {
        StreamIsShown(live, front, log);
      } else {
        StreamIsShown(live, front, log[..|log| - 1]);
        assert !EndsRun(log[|log| - 1]);
      }
    }
  }

  /** A client that has seen a run the engine has ended shows its status and its message, and no tool as running. */
  lemma EndedRunIsShown(live: R.Live, evs: seq<R.REvent>, log: seq<E.Event>)
    requires live.tools == [] && Ends([], log) && Mirrors(evs, log)
    ensures
      var shown := R.Fold(live, evs);
      && shown.status == log[|log| - 1].status && shown.text == log[|log| - 2].content
      && forall i :: 0 <= i < |shown.tools| ==> shown.tools[i].done
  {
    assert Balanced([]);
    StatusIsFinal(live, evs, log);
    FoldedAreOpen(live, evs, log);
  }

  /** When a tool turn mixes calls that parse with calls that do not, a tool can stay shown as running: the client sees
      the log up to the end of the run, and not the end of the tool. */
  lemma AbandonedIsShownRunning(live: R.Live, long: string)
    requires live.tools == [] && long != "" && long != "{}"
    ensures
      var parser := T.Refusing(long);
      var b := T.Batch([M.ToolCall("a", "web_fetch", "{}"), M.ToolCall("b", "web_fetch", long)], parser, "");
      var step := T.OfTask(0, false, T.Called(T.ToolText("page")));
      var acts := [step, step, T.OfTask(1, false, T.NoSuchTool), T.OfRun, T.OfRun, T.OfRun];
      var log := T.After(b, T.Start(b, []), acts).log;
      var evs := Numbered(log);
      && EndsOnce([], log) && Mirrors(evs, log)
      && R.Fold(live, evs).status == "failed"
      && R.Fold(live, evs).tools == [R.ToolInfo("a", "web_fetch", "", false, false, "")]
  {
    T.AbandonedCall(long);
    FailureIsShown(live, "a", "web_fetch", "too many digits");
    hide T.After, T.Start, R.Fold, Mirrors, EndsOnce;
  }

  lemma FailureIsShown(live: R.Live, id: string, name: string, error: string)
    requires live.tools == [] && id != ""
    ensures
      var log := [E.ToolStarted(id, name)] + T.Handler(error, "");
      var evs := Numbered(log);
      && EndsOnce([], log) && Mirrors(evs, log)
      && R.Fold(live, evs).status == "failed"
      && R.Fold(live, evs).tools == [R.ToolInfo(id, name, "", false, false, "")]
  {
    var h := T.Handler(error, "");
    var started, failing := [E.ToolStarted(id, name)], [E.ToolStarted(id, name), h[0]];
    var log := started + h;
    NumberedMirrors(log);
    assert log[0..] == log == failing + [h[1], h[2]];
    NoEndings(failing);
    EndingsAppend(failing, [h[1], h[2]]);
    EndingsOfTwo(h[1], h[2]);
    hide Mirrors, Endings;
    FoldStarted(live, id, name);
    FoldFailure(live, started, h, error);
  }

  lemma FoldStarted(live: R.Live, id: string, name: string)
    requires live.tools == [] && id != ""
    ensures R.Fold(live, Numbered([E.ToolStarted(id, name)])).tools == [R.ToolInfo(id, name, "", false, false, "")]
  {
    assert [] + [E.ToolStarted(id, name)] == [E.ToolStarted(id, name)];
    FoldNumbered(live, [], E.ToolStarted(id, name));
  }

  /** A handler's events leave the tools as they are. */
  lemma FoldFailure(live: R.Live, log: seq<E.Event>, h: seq<E.Event>, error: string)
    requires h == T.Handler(error, "")
    ensures R.Fold(live, Numbered(log + h)).status == "failed"
    ensures R.Fold(live, Numbered(log + h)).tools == R.Fold(live, Numbered(log)).tools
  {
    hide R.Fold, Numbered;
    FoldNumbered(live, log, h[0]);
    FoldNumbered(live, log + [h[0]], h[1]);
    FoldNumbered(live, log + [h[0]] + [h[1]], h[2]);
    assert log + h == log + [h[0]] + [h[1]] + [h[2]];
  }

  lemma FoldNumbered(live: R.Live, log: seq<E.Event>, e: E.Event)
    ensures R.Fold(live, Numbered(log + [e]))
         == R.Reduce(R.Fold(live, Numbered(log)), R.REvent(|log| + 1, Shown(e)))
  {
    hide R.Reduce, R.Fold;
    var evs := Numbered(log + [e]);
    assert evs[..|log|] == Numbered(log);
    R.FoldLast(live, evs);
  }

  lemma {:induction false} NumberedMirrors(log: seq<E.Event>)
    ensures Mirrors(Numbered(log), log)
    decreases |log|
  {
    if log != [] {
      var evs := Numbered(log);
      assert evs[..|evs| - 1] == Numbered(log[..|log| - 1]);
      NumberedMirrors(log[..|log| - 1]);
    }
  }

  /** The events of a log as the client gets them. */
  function Numbered(log: seq<E.Event>): seq<R.REvent> {
    seq(|log|, i requires 0 <= i < |log| => R.REvent(i + 1, Shown(log[i])))
  }
}
