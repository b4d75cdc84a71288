/** The protocol an event log obeys: how a run ends, and how tool calls open and close. */
module RunLog {
  import opened Session

  /** How an event changes the number of open tool calls with this id. */
  function Opens(e: Event, id: string): int {
    if e.ToolStarted? && e.id == id then 1 else if e.ToolFinished? && e.id == id then -1 else 0
  }

  /** How many tool calls with this id have been started and not finished. */
  function OpenCount(es: seq<Event>, id: string): int {
    if es == [] then 0 else OpenCount(es[..|es| - 1], id) + Opens(es[|es| - 1], id)
  }

  /** No tool call with this id was ever finished without being open. */
  predicate Bracketed(es: seq<Event>, id: string) {
    es == [] || (Bracketed(es[..|es| - 1], id) && OpenCount(es, id) >= 0)
  }

  /** Every tool call started is finished exactly once, after its start. */
  ghost predicate Balanced(es: seq<Event>) {
    forall id :: Bracketed(es, id) && OpenCount(es, id) == 0
  }

  lemma OneMoreEvent(log: seq<Event>, e: Event, id: string)
    ensures OpenCount(log + [e], id) == OpenCount(log, id) + Opens(e, id)
    ensures Bracketed(log + [e], id) <==> Bracketed(log, id) && OpenCount(log, id) + Opens(e, id) >= 0
  {
    assert (log + [e])[..|log + [e]| - 1] == log;
  }

  predicate EndsRun(e: Event) {
    e.MessageCompleted? || e.RunFinished?
  }

  /** The run has gone on: nothing has ended it, and its tool calls are still balanced if they were. */
  ghost predicate Continues(log: seq<Event>, log': seq<Event>) {
    && log <= log'
    && (forall i :: |log| <= i < |log'| ==> !EndsRun(log'[i]))
    && (Balanced(log) ==> Balanced(log'))
  }

  function Body(log: seq<Event>): seq<Event>
    requires |log| >= 2
  {
    log[..|log| - 2]
  }

  predicate IsEndStatus(status: string) {
    status == "succeeded" || status == "failed" || status == "cancelled"
  }

  /** The run has ended: one message.completed directly followed by one run.finished, nothing like them
      before, nothing at all after, and every tool call closed in between. */
  ghost predicate Ends(log: seq<Event>, log': seq<Event>) {
    && |log'| >= 2
    && Continues(log, Body(log'))
    && log'[|log'| - 2].MessageCompleted?
    && log'[|log'| - 1].RunFinished? && IsEndStatus(log'[|log'| - 1].status)
    && (Balanced(log) ==> Balanced(log'))
  }

  lemma {:induction false} NeutralKeepsCalls(log: seq<Event>, es: seq<Event>)
    requires AllNeutral(es)
    ensures Balanced(log) ==> Balanced(log + es)
    decreases |es|
  {
    if es == [] {
      assert log + es == log;
    } else {
      var front := es[..|es| - 1];
      NeutralKeepsCalls(log, front);
      assert log + es == (log + front) + [es[|es| - 1]];
      forall id ensures Balanced(log) ==> Bracketed(log + es, id) && OpenCount(log + es, id) == 0 {
        OneMoreEvent(log + front, es[|es| - 1], id);
      }
    }
  }

  predicate AllNeutral(es: seq<Event>) {
    forall i :: 0 <= i < |es| ==> !es[i].ToolStarted? && !es[i].ToolFinished?
  }

  lemma GrewContinues(log: seq<Event>, log': seq<Event>, text: string)
    requires Grew(log, log', text)
    ensures Continues(log, log')
  {
    var es := log'[|log|..];
    assert log' == log + es;
    NeutralKeepsCalls(log, es);
    forall i | |log| <= i < |log'| ensures !EndsRun(log'[i]) {
      assert Plain(es[i - |log|]);
    }
  }

  lemma AskedContinues(log: seq<Event>, log': seq<Event>, text: string, n: int, turn: int)
    requires Asked(log, log', text, n, turn)
    ensures Continues(log, log')
  {
    var es := log'[|log|..];
    assert log' == log + es;
    forall i | 0 <= i < |es| ensures !es[i].ToolStarted? && !es[i].ToolFinished? {
      assert es[i] == log'[|log| + i];
    }
    NeutralKeepsCalls(log, es);
  }

  lemma ContinuesRefl(log: seq<Event>)
    ensures Continues(log, log)
  {
  }

  lemma ContinuesPrefix(log: seq<Event>, log': seq<Event>)
    requires Continues(log, log')
    ensures log <= log'
  {}

  lemma ContinuesTrans(a: seq<Event>, b: seq<Event>, c: seq<Event>)
    requires Continues(a, b) && Continues(b, c)
    ensures Continues(a, c)
  {
    hide Balanced;
  }

  lemma ContinuesThenEnds(a: seq<Event>, b: seq<Event>, c: seq<Event>)
    requires Continues(a, b) && Ends(b, c)
    ensures Ends(a, c)
  {
    ContinuesTrans(a, b, Body(c));
    hide Balanced;
  }

  lemma FinishEnds(log: seq<Event>, mid: seq<Event>, completed: Event, finished: Event)
    requires Continues(log, mid) && completed.MessageCompleted? && finished.RunFinished? && IsEndStatus(finished.status)
    ensures Ends(log, mid + [completed, finished]) && Body(mid + [completed, finished]) == mid
  {
    var all := mid + [completed, finished];
    assert Body(all) == mid;
    NeutralKeepsCalls(mid, [completed, finished]);
  }

  // Runs that end, whatever their tool calls do

  /** The events of a log that end a run. */
  function Endings(es: seq<Event>): seq<Event> {
    if es == [] then []
    else Endings(es[..|es| - 1]) + if EndsRun(es[|es| - 1]) then [es[|es| - 1]] else []
  }

  lemma {:induction false} EndingsAppend(a: seq<Event>, b: seq<Event>)
    ensures Endings(a + b) == Endings(a) + Endings(b)
    decreases |b|
  {
    if b == [] {
      assert a + b == a;
    } else {
      assert (a + b)[..|a + b| - 1] == a + b[..|b| - 1];
      EndingsAppend(a, b[..|b| - 1]);
    }
  }

  lemma {:induction false} NoEndings(es: seq<Event>)
    requires forall i :: 0 <= i < |es| ==> !EndsRun(es[i])
    ensures Endings(es) == []
  {
    if es != [] {
      NoEndings(es[..|es| - 1]);
    }
  }

  lemma EndingsOfTwo(a: Event, b: Event)
    requires EndsRun(a) && EndsRun(b)
    ensures Endings([a, b]) == [a, b]
  {
    assert [a, b][..1] == [a] && [a][..0] == [];
    assert Endings([a]) == [a];
  }

  /** These are the events of a run that completes its message and then finishes, each once. */
  predicate IsEnd(es: seq<Event>) {
    |es| == 2 && es[0].MessageCompleted? && es[1].RunFinished? && IsEndStatus(es[1].status)
  }

  /** The run has ended once: one message.completed, and after it one run.finished. Unlike in Ends, events of tool calls
      may come between them and after them. */
  ghost predicate EndsOnce(log: seq<Event>, log': seq<Event>) {
    log <= log' && IsEnd(Endings(log'[|log|..]))
  }

  lemma EndsIsOnce(log: seq<Event>, log': seq<Event>)
    requires Ends(log, log')
    ensures EndsOnce(log, log')
    ensures Endings(log'[|log|..]) == [log'[|log'| - 2], log'[|log'| - 1]]
  {
    var completed, finished := log'[|log'| - 2], log'[|log'| - 1];
    var es := Body(log')[|log|..];
    assert log'[|log|..] == es + [completed, finished];
    forall i | 0 <= i < |es| ensures !EndsRun(es[i]) {
      assert es[i] == Body(log')[|log| + i];
    }
    NoEndings(es);
    EndingsAppend(es, [completed, finished]);
    EndingsOfTwo(completed, finished);
  }

  lemma ContinuesThenEndsOnce(a: seq<Event>, b: seq<Event>, c: seq<Event>)
    requires Continues(a, b) && EndsOnce(b, c)
    ensures EndsOnce(a, c) && Endings(c[|a|..]) == Endings(c[|b|..])
  {
    assert c[|a|..] == b[|a|..] + c[|b|..];
    forall i | 0 <= i < |b[|a|..]| ensures !EndsRun(b[|a|..][i]) {
      assert b[|a|..][i] == b[|a| + i];
    }
    NoEndings(b[|a|..]);
    EndingsAppend(b[|a|..], c[|b|..]);
  }
}
