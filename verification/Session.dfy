/** What a run shares: the event log its emitter appends to, and its cancel flag. */
module Session {
  import opened Common

  datatype Event =
    | RunProgress(turn: int)
    | ReasoningDelta(delta: string)
    | TextDelta(delta: string)
    | ToolStarted(id: string, name: string)
    | ToolFinished(id: string, ok: bool, summary: string)
    | OutputContinuation(attempt: nat, maxAttempts: int, reason: Option<string>)
    | ContextCompacted(droppedMessages: nat, keptMessages: nat, tokensBefore: nat, tokensAfter: nat)
    | ErrorEvent(message: string)
    | MessageCompleted(content: string, truncated: bool)
    | RunFinished(status: string, error: Option<string>)

  /** The cancel flag is set by another task at some await, and stays set: an arbitrary monotone flag. */
  class RunSession {
    var events: seq<Event>
    var clock: nat
    const cancelAt: Option<nat>

    constructor (cancelAt: Option<nat>)
      ensures events == [] && clock == 0 && this.cancelAt == cancelAt
    {
      events := [];
      clock := 0;
      this.cancelAt := cancelAt;
    }

    predicate Cancelled()
      reads this
    {
      cancelAt.Some? && cancelAt.value <= clock
    }

    /** A suspension point at which other tasks may run. */
    method Await()
      modifies this`clock
      ensures clock == old(clock) + 1
    {
      clock := clock + 1;
    }

    method Emit(e: Event)
      modifies this
      ensures events == old(events) + [e]
      ensures clock == old(clock) + 1
    {
      events := events + [e];
      clock := clock + 1;
    }
  }

  // What an event log says

  /** The answer text streamed so far. */
  function TextOf(es: seq<Event>): string {
    if es == [] then ""
    else TextOf(es[..|es| - 1]) + if es[|es| - 1].TextDelta? then es[|es| - 1].delta else ""
  }

  lemma {:induction false} TextOfAppend(a: seq<Event>, b: seq<Event>)
    ensures TextOf(a + b) == TextOf(a) + TextOf(b)
    decreases |b|
  {
    if b == [] {
      assert a + b == a;
    } else {
      assert (a + b)[..|a + b| - 1] == a + b[..|b| - 1];
      TextOfAppend(a, b[..|b| - 1]);
    }
  }

  /** Neither ends the run nor belongs to a tool call, nor announces a model call. */
  predicate Plain(e: Event) {
    !e.MessageCompleted? && !e.RunFinished? && !e.ToolStarted? && !e.ToolFinished? && !e.RunProgress?
  }

  predicate AllPlain(es: seq<Event>) {
    forall i :: 0 <= i < |es| ==> Plain(es[i])
  }

  /** The log was only appended to, with plain events, and with this answer text. */
  ghost predicate Grew(log: seq<Event>, log': seq<Event>, text: string) {
    log <= log' && AllPlain(log'[|log|..]) && TextOf(log'[|log|..]) == text
  }

  lemma GrewNothing(log: seq<Event>)
    ensures Grew(log, log, "")
  {
    assert log[|log|..] == [];
  }

  lemma GrewEmit(log: seq<Event>, e: Event)
    requires Plain(e)
    ensures Grew(log, log + [e], if e.TextDelta? then e.delta else "")
  {
    assert (log + [e])[|log|..] == [e];
    assert [e][..0] == [];
  }

  lemma GrewTrans(a: seq<Event>, b: seq<Event>, c: seq<Event>, s: string, t: string)
    requires Grew(a, b, s) && Grew(b, c, t)
    ensures Grew(a, c, s + t)
  {
    assert c[|a|..] == b[|a|..] + c[|b|..];
    TextOfAppend(b[|a|..], c[|b|..]);
  }

  // Model calls on a log: each is announced by one event

  /** How many model calls are announced. */
  function Requests(es: seq<Event>): nat {
    if es == [] then 0 else Requests(es[..|es| - 1]) + if es[|es| - 1].RunProgress? then 1 else 0
  }

  lemma {:induction false} RequestsAppend(a: seq<Event>, b: seq<Event>)
    ensures Requests(a + b) == Requests(a) + Requests(b)
    decreases |b|
  {
    if b == [] {
      assert a + b == a;
    } else {
      assert (a + b)[..|a + b| - 1] == a + b[..|b| - 1];
      RequestsAppend(a, b[..|b| - 1]);
    }
  }

  lemma {:induction false} NoRequests(es: seq<Event>)
    requires forall i :: 0 <= i < |es| ==> !es[i].RunProgress?
    ensures Requests(es) == 0
  {
    if es != [] {
      NoRequests(es[..|es| - 1]);
    }
  }

  /** The log was appended to, and n model calls were announced meanwhile. */
  ghost predicate Requested(log: seq<Event>, log': seq<Event>, n: int) {
    log <= log' && Requests(log'[|log|..]) == n
  }

  lemma RequestedTrans(a: seq<Event>, b: seq<Event>, c: seq<Event>, m: int, n: int)
    requires Requested(a, b, m) && Requested(b, c, n)
    ensures Requested(a, c, m + n)
  {
    assert c[|a|..] == b[|a|..] + c[|b|..];
    RequestsAppend(b[|a|..], c[|b|..]);
  }

  lemma RequestedNone(log: seq<Event>, log': seq<Event>)
    requires log <= log' && forall i :: |log| <= i < |log'| ==> !log'[i].RunProgress?
    ensures Requested(log, log', 0)
  {
    NoRequests(log'[|log|..]);
  }

  lemma GrewRequests(log: seq<Event>, log': seq<Event>, text: string)
    requires Grew(log, log', text)
    ensures Requested(log, log', 0)
  {
    forall i | 0 <= i < |log'[|log|..]| ensures !log'[|log|..][i].RunProgress? {
      assert Plain(log'[|log|..][i]);
    }
    NoRequests(log'[|log|..]);
  }

  lemma {:induction false} NoneRequested(es: seq<Event>)
    requires Requests(es) == 0
    ensures forall i :: 0 <= i < |es| ==> !es[i].RunProgress?
  {
    if es != [] {
      NoneRequested(es[..|es| - 1]);
    }
  }

  /** The model calls announced meanwhile belong to turns lo to hi. */
  ghost predicate OfTurns(log: seq<Event>, log': seq<Event>, lo: int, hi: int) {
    forall i :: |log| <= i < |log'| && log'[i].RunProgress? ==> lo <= log'[i].turn <= hi
  }

  lemma OfTurnsTrans(a: seq<Event>, b: seq<Event>, c: seq<Event>, lo: int, mid: int, hi: int)
    requires a <= b <= c && OfTurns(a, b, lo, mid) && OfTurns(b, c, lo, hi) && mid <= hi
    ensures OfTurns(a, c, lo, hi)
  {}

  lemma OfNoTurn(log: seq<Event>, log': seq<Event>, lo: int, hi: int)
    requires Requested(log, log', 0)
    ensures OfTurns(log, log', lo, hi)
  {
    NoneRequested(log'[|log|..]);
    forall i | |log| <= i < |log'| ensures !log'[i].RunProgress? {
      assert log'[i] == log'[|log|..][i - |log|];
    }
  }

  /** The log was appended to by n model calls of one turn: it starts with the announcement of the first, nothing ends
      the run or belongs to a tool call, and this is the answer text. */
  ghost predicate Asked(log: seq<Event>, log': seq<Event>, text: string, n: int, turn: int) {
    && Requested(log, log', n)
    && (forall i :: |log| <= i < |log'| ==> Plain(log'[i]) || log'[i] == RunProgress(turn))
    && TextOf(log'[|log|..]) == text
    && (n == 0 ==> log' == log) && (n > 0 ==> |log'| > |log| && log'[|log|].RunProgress?)
  }

  lemma AskedNothing(log: seq<Event>, turn: int)
    ensures Asked(log, log, "", 0, turn)
  {
    assert log[|log|..] == [];
  }

  /** A model call: its announcement, and what it adds. */
  lemma AskedOnce(log: seq<Event>, log': seq<Event>, turn: int, text: string)
    requires Grew(log + [RunProgress(turn)], log', text)
    ensures Asked(log, log', text, 1, turn)
  {
    var first := log + [RunProgress(turn)];
    GrewRequests(first, log', text);
    assert first[|log|..] == [RunProgress(turn)] && [RunProgress(turn)][..0] == [];
    assert Requested(log, first, 1);
    RequestedTrans(log, first, log', 1, 0);
    assert log'[|log|..] == [RunProgress(turn)] + log'[|first|..];
    TextOfAppend([RunProgress(turn)], log'[|first|..]);
    PlainSince(first, log', text);
  }

  lemma PlainSince(log: seq<Event>, log': seq<Event>, text: string)
    requires Grew(log, log', text)
    ensures forall i :: |log| <= i < |log'| ==> Plain(log'[i])
  {
    forall i | |log| <= i < |log'| ensures Plain(log'[i]) {
      assert log'[i] == log'[|log|..][i - |log|];
    }
  }

  lemma AskedTrans(a: seq<Event>, b: seq<Event>, c: seq<Event>, s: string, t: string, m: nat, n: nat, turn: int)
    requires Asked(a, b, s, m, turn) && Asked(b, c, t, n, turn)
    ensures Asked(a, c, s + t, m + n, turn)
  {
    RequestedTrans(a, b, c, m, n);
    assert c[|a|..] == b[|a|..] + c[|b|..];
    TextOfAppend(b[|a|..], c[|b|..]);
  }

  lemma AskedThenGrew(a: seq<Event>, b: seq<Event>, c: seq<Event>, s: string, t: string, n: nat, turn: int)
    requires Asked(a, b, s, n, turn) && Grew(b, c, t) && n > 0
    ensures Asked(a, c, s + t, n, turn)
  {
    GrewRequests(b, c, t);
    RequestedTrans(a, b, c, n, 0);
    PlainSince(b, c, t);
    assert c[|a|..] == b[|a|..] + c[|b|..];
    TextOfAppend(b[|a|..], c[|b|..]);
  }
}
