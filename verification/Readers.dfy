/** Reading a run: the journal pages, the server's replay followed by live delivery, and the client's guarded fold. */
module Readers {
  import opened Common

  /** An event as a reader sees it, defaults filled in; seqNo 0 stands for a missing number. */
  datatype REvent = REvent(seqNo: int, body: Body)

  datatype Body =
    | RunStarted
    | Progress(newNote: Option<string>)
    | ReasoningDelta(delta: string)
    | TextDelta(delta: string)
    | ToolStarted(id: string, name: string, args: string)
    | ToolFinished(id: string, ok: bool, summary: string)
    | Completed(content: Option<string>)
    | RunFinished(endStatus: string, runError: string)
    | Problem(message: string)
    | Other

  datatype ToolInfo = ToolInfo(id: string, name: string, args: string, done: bool, ok: bool, summary: string)

  datatype Live = Live(status: string, note: string, reasoning: string, text: string, tools: seq<ToolInfo>,
      error: Option<string>)

  predicate Known(tools: seq<ToolInfo>, id: string) {
    exists i :: 0 <= i < |tools| && tools[i].id == id
  }

  function Closed(tools: seq<ToolInfo>, id: string, ok: bool, summary: string): seq<ToolInfo> {
    seq(|tools|, i requires 0 <= i < |tools| =>
      if tools[i].id == id then tools[i].(done := true, ok := ok, summary := summary) else tools[i])
  }

  function Reduce(live: Live, ev: REvent): Live {
    match ev.body
    case RunStarted => live.(status := "running", note := if live.note == "" then "thinking" else live.note)
    case Progress(n) => live.(status := "running", note := if n.Some? then n.value else live.note)
    case ReasoningDelta(d) => live.(reasoning := live.reasoning + d)
    case TextDelta(d) => live.(text := live.text + d)
    case ToolStarted(id, name, args) =>
      if id == "" || Known(live.tools, id) then live
      else live.(tools := live.tools + [ToolInfo(id, name, args, false, false, "")])
    case ToolFinished(id, ok, summary) => live.(tools := Closed(live.tools, id, ok, summary))
    case Completed(c) => if c.Some? then live.(text := c.value) else live
    case RunFinished(st, e) => live.(status := st, error := if e != "" then Some(e) else live.error)
    case Problem(m) => live.(error := Some(m))
    case Other => live
  }

  function Fold(live: Live, evs: seq<REvent>): Live
    decreases |evs|
  {
    if evs == [] then live else Fold(Reduce(live, evs[0]), evs[1..])
  }

  lemma {:induction false} FoldAppend(live: Live, a: seq<REvent>, b: seq<REvent>)
    ensures Fold(live, a + b) == Fold(Fold(live, a), b)
    decreases |a|
  {
    hide Reduce;
    if a == [] {
      assert a + b == b;
    } else {
      assert (a + b)[1..] == a[1..] + b;
      FoldAppend(Reduce(live, a[0]), a[1..], b);
    }
  }

  // What the fold shows

  /** The text of the deltas. */
  function TextOf(evs: seq<REvent>): string
    decreases |evs|
  {
    if evs == [] then ""
    else TextOf(evs[..|evs| - 1]) + if evs[|evs| - 1].body.TextDelta? then evs[|evs| - 1].body.delta else ""
  }

  function ReasoningOf(evs: seq<REvent>): string
    decreases |evs|
  {
    if evs == [] then ""
    else ReasoningOf(evs[..|evs| - 1]) + if evs[|evs| - 1].body.ReasoningDelta? then evs[|evs| - 1].body.delta else ""
  }

  lemma FoldLast(live: Live, evs: seq<REvent>)
    requires evs != []
    ensures Fold(live, evs) == Reduce(Fold(live, evs[..|evs| - 1]), evs[|evs| - 1])
  {
    var front, last := evs[..|evs| - 1], evs[|evs| - 1];
    assert evs == front + [last];
    FoldAppend(live, front, [last]);
    assert [last][1..] == [];
  }

  lemma ReduceShows(live: Live, ev: REvent)
    ensures Reduce(live, ev).reasoning == live.reasoning + if ev.body.ReasoningDelta? then ev.body.delta else ""
    ensures !ev.body.Completed? ==>
              Reduce(live, ev).text == live.text + if ev.body.TextDelta? then ev.body.delta else ""
  {}

  /** Before the message is complete, the text shown is what was streamed; the reasoning shown is always that. */
  lemma {:induction false} ShowsWhatStreamed(live: Live, evs: seq<REvent>)
    ensures Fold(live, evs).reasoning == live.reasoning + ReasoningOf(evs)
    ensures (forall i :: 0 <= i < |evs| ==> !evs[i].body.Completed?) ==> Fold(live, evs).text == live.text + TextOf(evs)
    decreases |evs|
  {
    if evs != [] {
      hide Fold, Reduce;
      FoldLast(live, evs);
      ShowsWhatStreamed(live, evs[..|evs| - 1]);
      ReduceShows(Fold(live, evs[..|evs| - 1]), evs[|evs| - 1]);
    }
  }

  /** Afterwards it is the message, until more streams. */
  lemma {:induction false} ShowsTheMessage(live: Live, before: seq<REvent>, completed: REvent, after: seq<REvent>)
    requires completed.body.Completed? && completed.body.content.Some?
    requires forall i :: 0 <= i < |after| ==> !after[i].body.Completed?
    ensures Fold(live, before + [completed] + after).text == completed.body.content.value + TextOf(after)
    decreases |after|
  {
    FoldAppend(live, before + [completed], after);
    FoldLast(live, before + [completed]);
    assert (before + [completed])[..|before|] == before;
    ShowsWhatStreamed(Fold(live, before + [completed]), after);
  }

  /** The error shown is the last one reported, by the run's end or on the way; none is ever taken back. */
  lemma {:induction false} ShowsTheError(live: Live, evs: seq<REvent>, i: nat, error: string)
    requires i < |evs|
    requires
      evs[i].body == Problem(error) || (evs[i].body.RunFinished? && evs[i].body.runError == error && error != "")
    requires forall k :: i < k < |evs| ==>
      !evs[k].body.Problem? && (evs[k].body.RunFinished? ==> evs[k].body.runError == "")
    ensures Fold(live, evs).error == Some(error)
    decreases |evs|
  {
    FoldLast(live, evs);
    if i < |evs| - 1 {
      ShowsTheError(live, evs[..|evs| - 1], i, error);
    }
  }

  /** The last word about the status: of the end of the run, or else that it runs. */
  function StatusOf(status: string, evs: seq<REvent>): string
    decreases |evs|
  {
    if evs == [] then status
    else
      match evs[|evs| - 1].body
      case RunStarted => "running"
      case Progress(_) => "running"
      case RunFinished(endStatus, _) => endStatus
      case _ => StatusOf(status, evs[..|evs| - 1])
  }

  lemma {:induction false} ShowsTheStatus(live: Live, evs: seq<REvent>)
    ensures Fold(live, evs).status == StatusOf(live.status, evs)
    decreases |evs|
  {
    if evs != [] {
      FoldLast(live, evs);
      ShowsTheStatus(live, evs[..|evs| - 1]);
    }
  }

  /** A tool with an id is shown once it has started, under that id once only, and done as soon as its end is seen. */
  lemma {:induction false} ShowsTheTools(live: Live, evs: seq<REvent>, i: nat)
    requires live.tools == [] && i < |evs|
    ensures evs[i].body.ToolStarted? && evs[i].body.id != "" ==> Known(Fold(live, evs).tools, evs[i].body.id)
    ensures forall k, j :: 0 <= k < j < |Fold(live, evs).tools| ==>
      Fold(live, evs).tools[k].id != Fold(live, evs).tools[j].id
    decreases |evs|
  {
    FoldLast(live, evs);
    var front := evs[..|evs| - 1];
    OncePerId(live, front);
    if i < |front| {
      ShowsTheTools(live, front, i);
    }
    OncePerId(live, evs);
    hide Fold;
    ToolsStay(Fold(live, front), evs[|evs| - 1]);
    if i == |front| && evs[i].body.ToolStarted? && evs[i].body.id != "" {
      StartIsShown(Fold(live, front), evs[i]);
    }
  }

  lemma ToolsStay(live: Live, ev: REvent)
    ensures forall id :: Known(live.tools, id) ==> Known(Reduce(live, ev).tools, id)
  {
    forall id | Known(live.tools, id) ensures Known(Reduce(live, ev).tools, id) {
      var k :| 0 <= k < |live.tools| && live.tools[k].id == id;
      assert Reduce(live, ev).tools[k].id == id;
    }
  }

  lemma StartIsShown(live: Live, ev: REvent)
    requires ev.body.ToolStarted? && ev.body.id != ""
    ensures Known(Reduce(live, ev).tools, ev.body.id)
  {
    if !Known(live.tools, ev.body.id) {
      assert Reduce(live, ev).tools[|live.tools|].id == ev.body.id;
    }
  }

  lemma {:induction false} OncePerId(live: Live, evs: seq<REvent>)
    requires live.tools == []
    ensures forall k, j :: 0 <= k < j < |Fold(live, evs).tools| ==>
      Fold(live, evs).tools[k].id != Fold(live, evs).tools[j].id
    decreases |evs|
  {
    if evs != [] {
      FoldLast(live, evs);
      OncePerId(live, evs[..|evs| - 1]);
      StillOnce(Fold(live, evs[..|evs| - 1]), evs[|evs| - 1]);
      hide Fold;
    }
  }

  lemma StillOnce(live: Live, ev: REvent)
    requires forall k, j :: 0 <= k < j < |live.tools| ==> live.tools[k].id != live.tools[j].id
    ensures forall k, j :: 0 <= k < j < |Reduce(live, ev).tools| ==>
      Reduce(live, ev).tools[k].id != Reduce(live, ev).tools[j].id
  {
    if ev.body.ToolFinished? {
      assert forall k :: 0 <= k < |live.tools| ==> Reduce(live, ev).tools[k].id == live.tools[k].id;
    }
  }

  /** After the end event of a tool, each tool shown under its id is done, with this outcome, and the others are as
      before. */
  lemma EndIsShown(live: Live, ev: REvent)
    requires ev.body.ToolFinished?
    ensures
      var tools := Reduce(live, ev).tools;
      && |tools| == |live.tools|
      && forall k :: 0 <= k < |tools| ==>
           tools[k] == if live.tools[k].id == ev.body.id
                       then live.tools[k].(done := true, ok := ev.body.ok, summary := ev.body.summary)
                       else live.tools[k]
  {}

  // The guard

  /** The guard of the client: events without a number pass, others only above all numbers so far. */
  predicate Passes(m: int, ev: REvent) {
    ev.seqNo == 0 || m < ev.seqNo
  }

  function Top(m: int, ev: REvent): int {
    if ev.seqNo != 0 && Passes(m, ev) then ev.seqNo else m
  }

  function TopAll(m: int, evs: seq<REvent>): int
    decreases |evs|
  {
    if evs == [] then m else TopAll(Top(m, evs[0]), evs[1..])
  }

  function Fresh(m: int, evs: seq<REvent>): seq<REvent>
    decreases |evs|
  {
    if evs == [] then [] else (if Passes(m, evs[0]) then [evs[0]] else []) + Fresh(Top(m, evs[0]), evs[1..])
  }

  /** Numbers strictly increase, from above m. */
  predicate Increasing(m: int, evs: seq<REvent>)
    decreases |evs|
  {
    evs == [] || (m < evs[0].seqNo && Increasing(evs[0].seqNo, evs[1..]))
  }

  lemma {:induction false} IncreasingAt(m: int, evs: seq<REvent>, i: nat)
    requires Increasing(m, evs) && i < |evs|
    ensures m < evs[i].seqNo && Increasing(evs[i].seqNo, evs[i + 1..])
    ensures Increasing(m, evs[..i])
    decreases |evs|
  {
    if i > 0 {
      IncreasingAt(evs[0].seqNo, evs[1..], i - 1);
      assert evs[1..][i..] == evs[i + 1..];
      assert evs[..i][1..] == evs[1..][..i - 1];
    }
  }

  /** What passes the guard has strictly increasing numbers. */
  lemma {:induction false} FreshIncreasing(m: int, evs: seq<REvent>)
    requires forall ev :: ev in evs ==> ev.seqNo != 0
    ensures Increasing(m, Fresh(m, evs))
    decreases |evs|
  {
    if evs != [] {
      FreshIncreasing(Top(m, evs[0]), evs[1..]);
      if Passes(m, evs[0]) {
        assert Fresh(m, evs)[1..] == Fresh(evs[0].seqNo, evs[1..]);
      } else {
        assert Fresh(m, evs) == Fresh(m, evs[1..]);
      }
    }
  }

  /** Increasing events from above all pass. */
  lemma {:induction false} IncreasingAllPass(m: int, evs: seq<REvent>)
    requires Increasing(m, evs) && m >= 0
    ensures Fresh(m, evs) == evs
    decreases |evs|
  {
    if evs != [] { IncreasingAllPass(evs[0].seqNo, evs[1..]); }
  }

  lemma {:induction false} FreshAppend(m: int, a: seq<REvent>, b: seq<REvent>)
    ensures Fresh(m, a + b) == Fresh(m, a) + Fresh(TopAll(m, a), b)
    ensures TopAll(m, a + b) == TopAll(TopAll(m, a), b)
    decreases |a|
  {
    if a == [] {
      assert a + b == b;
    } else {
      assert (a + b)[1..] == a[1..] + b;
      FreshAppend(Top(m, a[0]), a[1..], b);
    }
  }

  /** The number of the last of the first k events. */
  function LastSeq(journal: seq<REvent>, k: nat): int
    requires k <= |journal|
  {
    if k == 0 then 0 else journal[k - 1].seqNo
  }

  /** Deliveries that, with k events of the journal already seen, bring a reader to n of them: each is the next
      event, or one sent again. */
  predicate Follows(evs: seq<REvent>, journal: seq<REvent>, k: nat, n: nat)
    requires k <= |journal|
    decreases |evs|
  {
    if evs == [] then k == n
    else
      || (0 < evs[0].seqNo <= LastSeq(journal, k) && Follows(evs[1..], journal, k, n))
      || (k < |journal| && evs[0] == journal[k] && Follows(evs[1..], journal, k + 1, n))
  }

  /** With re-sent events mixed in anywhere, the guarded fold sees each event of the journal once, in order. */
  lemma {:induction false} ResentAreDropped(evs: seq<REvent>, journal: seq<REvent>, k: nat, n: nat)
    requires Increasing(0, journal) && k <= |journal| && Follows(evs, journal, k, n)
    ensures k <= n <= |journal| && Fresh(LastSeq(journal, k), evs) == journal[k..n]
    decreases |evs|
  {
    if evs != [] {
      if 0 < evs[0].seqNo <= LastSeq(journal, k) && Follows(evs[1..], journal, k, n) {
        ResentAreDropped(evs[1..], journal, k, n);
      } else {
        NextAbove(journal, k);
        ResentAreDropped(evs[1..], journal, k + 1, n);
        assert journal[k..n] == [journal[k]] + journal[k + 1..n];
      }
    }
  }

  lemma NextAbove(journal: seq<REvent>, k: nat)
    requires Increasing(0, journal) && k < |journal|
    ensures 0 <= LastSeq(journal, k) < journal[k].seqNo
  {
    IncreasingAt(0, journal, k);
    if k > 0 {
      IncreasingAt(0, journal, k - 1);
      assert journal[k..][0] == journal[k];
    }
  }

  lemma LastSeqIsTop(journal: seq<REvent>, k: nat, n: nat)
    requires Increasing(0, journal) && k <= n <= |journal|
    ensures TopAll(LastSeq(journal, k), journal[k..n]) == LastSeq(journal, n)
    ensures Fresh(LastSeq(journal, k), journal[k..n]) == journal[k..n]
    decreases n - k
  {
    if k < n {
      NextAbove(journal, k);
      LastSeqIsTop(journal, k + 1, n);
      assert journal[k..n][1..] == journal[k + 1..n];
      assert journal[k..n] == [journal[k]] + journal[k + 1..n];
    }
  }

  // The server

  /** The rows with a number above this one; the table is ordered by number. */
  function After(journal: seq<REvent>, after: int): seq<REvent>
    decreases |journal|
  {
    if journal == [] || after < journal[0].seqNo then journal else After(journal[1..], after)
  }

  lemma {:induction false} AfterLast(m: int, journal: seq<REvent>, k: nat)
    requires Increasing(m, journal) && 0 < k <= |journal|
    ensures After(journal, journal[k - 1].seqNo) == journal[k..]
    decreases |journal|
  {
    IncreasingAt(m, journal, k - 1);
    if k == 1 {
      IncreasingAt(m, journal, 0);
    } else {
      assert journal[1..][k - 1..] == journal[k..];
      FirstIsLess(m, journal, k - 1);
      AfterLast(journal[0].seqNo, journal[1..], k - 1);
    }
  }

  lemma FirstIsLess(m: int, journal: seq<REvent>, k: nat)
    requires Increasing(m, journal) && 0 < k < |journal|
    ensures journal[0].seqNo < journal[k].seqNo
  {
    IncreasingAt(journal[0].seqNo, journal[1..], k - 1);
  }

  lemma {:induction false} AfterIsAbove(m: int, journal: seq<REvent>, after: int)
    requires Increasing(m, journal)
    ensures Increasing(after, After(journal, after))
    decreases |journal|
  {
    if journal != [] && journal[0].seqNo <= after { AfterIsAbove(journal[0].seqNo, journal[1..], after); }
  }

  /** The replay has exactly the events above the client's number. */
  lemma {:induction false} ReplayIsTheRest(m: int, journal: seq<REvent>, after: int, i: nat)
    requires Increasing(m, journal) && i < |journal|
    ensures journal[i] in After(journal, after) <==> journal[i].seqNo > after
    decreases |journal|
  {
    if journal[0].seqNo <= after {
      if i > 0 {
        ReplayIsTheRest(journal[0].seqNo, journal[1..], after, i - 1);
      } else {
        AfterIsAbove(m, journal, after);
        if journal[0] in After(journal, after) {
          var k :| 0 <= k < |After(journal, after)| && After(journal, after)[k] == journal[0];
          IncreasingAt(after, After(journal, after), k);
        }
      }
    } else {
      if i > 0 { FirstIsLess(m, journal, i); }
      assert journal[i] in journal;
    }
  }

  /** What wakes the live loop: the request ends, a ping is due, the channel is closed, or it has an event. */
  datatype Tick = Done | Ping | ChannelClosed | Arrives(ev: REvent)

  /** The live part: guarded by the highest number so far, and over after run.finished. */
  function LiveSent(m: int, ticks: seq<Tick>): seq<REvent>
    decreases |ticks|
  {
    if ticks == [] || ticks[0].Done? || ticks[0].ChannelClosed? then []
    else if ticks[0].Ping? || ticks[0].ev.seqNo <= m then LiveSent(m, ticks[1..])
    else [ticks[0].ev] + if ticks[0].ev.body.RunFinished? then [] else LiveSent(ticks[0].ev.seqNo, ticks[1..])
  }

  lemma {:induction false} LiveSentIncreasing(m: int, ticks: seq<Tick>)
    ensures Increasing(m, LiveSent(m, ticks))
    decreases |ticks|
  {
    if ticks != [] && !ticks[0].Done? && !ticks[0].ChannelClosed? {
      if ticks[0].Ping? || ticks[0].ev.seqNo <= m {
        LiveSentIncreasing(m, ticks[1..]);
      } else {
        var ev := ticks[0].ev;
        LiveSentIncreasing(ev.seqNo, ticks[1..]);
        assert LiveSent(m, ticks)[1..] == if ev.body.RunFinished? then [] else LiveSent(ev.seqNo, ticks[1..]);
      }
    }
  }

  /** A request that lasts, on a channel that stays open, sends every new event up to the end of the run. */
  lemma {:induction false} LiveSendsAll(m: int, ticks: seq<Tick>, evs: seq<REvent>)
    requires Brings(ticks, evs) && Increasing(m, evs)
    requires forall i :: 0 <= i < |evs| - 1 ==> !evs[i].body.RunFinished?
    ensures LiveSent(m, ticks) == evs
    decreases |ticks|
  {
    if ticks != [] {
      if ticks[0].Ping? {
        LiveSendsAll(m, ticks[1..], evs);
      } else if evs[0].body.RunFinished? {
        assert evs == [evs[0]];
      } else {
        LiveSendsAll(evs[0].seqNo, ticks[1..], evs[1..]);
      }
    }
  }

  /** The channel brings these events, with pings in between. */
  predicate Brings(ticks: seq<Tick>, evs: seq<REvent>)
    decreases |ticks|
  {
    if ticks == [] then evs == []
    else match ticks[0]
         case Ping => Brings(ticks[1..], evs)
         case Arrives(ev) => evs != [] && evs[0] == ev && Brings(ticks[1..], evs[1..])
         case _ => false
  }

  /** Nothing is sent after the request or the channel has ended, or an end of the run was sent. */
  lemma {:induction false} NothingAfterTheEnd(m: int, ticks: seq<Tick>, k: nat)
    requires k < |ticks| && (ticks[k].Done? || ticks[k].ChannelClosed?)
    ensures LiveSent(m, ticks) == LiveSent(m, ticks[..k])
    decreases |ticks|
  {
    if k > 0 && !ticks[0].Done? && !ticks[0].ChannelClosed? {
      assert ticks[..k][1..] == ticks[1..][..k - 1];
      NothingAfterTheEnd(if ticks[0].Ping? || ticks[0].ev.seqNo <= m then m else ticks[0].ev.seqNo, ticks[1..], k - 1);
    }
  }

  lemma {:induction false} EndIsLast(m: int, ticks: seq<Tick>, i: nat)
    requires i < |LiveSent(m, ticks)| - 1
    ensures !LiveSent(m, ticks)[i].body.RunFinished?
    decreases |ticks|
  {
    if ticks[0].Ping? || ticks[0].ev.seqNo <= m {
      EndIsLast(m, ticks[1..], i);
    } else if i > 0 {
      EndIsLast(ticks[0].ev.seqNo, ticks[1..], i - 1);
    }
  }

  function EndOf(m: int, evs: seq<REvent>): int {
    if evs == [] then m else evs[|evs| - 1].seqNo
  }

  lemma {:induction false} IncreasingAppend(m: int, a: seq<REvent>, b: seq<REvent>)
    requires Increasing(m, a) && Increasing(EndOf(m, a), b)
    ensures Increasing(m, a + b)
    decreases |a|
  {
    if a == [] {
      assert a + b == b;
    } else {
      assert (a + b)[1..] == a[1..] + b;
      IncreasingAppend(a[0].seqNo, a[1..], b);
    }
  }

  method Replay(replay: seq<REvent>, after: int) returns (maxSeq: int)
    requires Increasing(after, replay)
    ensures maxSeq == EndOf(after, replay)
  {
    maxSeq := after;
    var i := 0;
    while i < |replay|
      invariant 0 <= i <= |replay| && maxSeq == EndOf(after, replay[..i])
    {
      StepUp(after, replay, i);
      if replay[i].seqNo > maxSeq { maxSeq := replay[i].seqNo; }
      i := i + 1;
    }
    assert replay[..i] == replay;
  }

  method LiveLoop(start: int, ticks: seq<Tick>) returns (sent: seq<REvent>)
    ensures sent == LiveSent(start, ticks)
  {
    var maxSeq := start;
    sent := [];
    var k := 0;
    while k < |ticks|
      invariant 0 <= k <= |ticks|
      invariant sent + LiveSent(maxSeq, ticks[k..]) == LiveSent(start, ticks)
    {
      var tick := ticks[k];
      LiveStep(maxSeq, ticks, k);
      hide LiveSent;
      if tick.Done? || tick.ChannelClosed? { return; }
      k := k + 1;
      if tick.Arrives? && tick.ev.seqNo > maxSeq {
        maxSeq := tick.ev.seqNo;
        ghost var before := sent;
        sent := sent + [tick.ev];
        if tick.ev.body.RunFinished? { return; }
        assert before + ([tick.ev] + LiveSent(maxSeq, ticks[k..])) == sent + LiveSent(maxSeq, ticks[k..]);
      }
    }
  }

  lemma LiveStep(m: int, ticks: seq<Tick>, k: nat)
    requires k < |ticks|
    ensures var tick := ticks[k];
            LiveSent(m, ticks[k..]) ==
            if tick.Done? || tick.ChannelClosed? then []
            else if tick.Ping? || tick.ev.seqNo <= m then LiveSent(m, ticks[k + 1..])
            else if tick.ev.body.RunFinished? then [tick.ev]
            else [tick.ev] + LiveSent(tick.ev.seqNo, ticks[k + 1..])
  {
    assert ticks[k..][1..] == ticks[k + 1..];
  }

  /** StreamRun on a journal, from the number the client gives; terminal: the run is over when looked at again.
      Everything sent has strictly increasing numbers above the client's. */
  method StreamRun(journal: seq<REvent>, after: int, terminal: bool, ticks: seq<Tick>) returns (sent: seq<REvent>)
    requires Increasing(0, journal)
    ensures Increasing(after, sent) && After(journal, after) <= sent
    ensures var replay := After(journal, after);
            sent == replay + if terminal then [] else LiveSent(EndOf(after, replay), ticks)
  {
    AfterIsAbove(0, journal, after);
    sent := After(journal, after);
    var maxSeq := Replay(sent, after);
    if terminal { return; }
    LiveSentIncreasing(maxSeq, ticks);
    IncreasingAppend(after, sent, LiveSent(maxSeq, ticks));
    var live := LiveLoop(maxSeq, ticks);
    sent := sent + live;
  }

  lemma StepUp(m: int, evs: seq<REvent>, i: nat)
    requires Increasing(m, evs) && i < |evs|
    ensures EndOf(m, evs[..i]) < evs[i].seqNo == EndOf(m, evs[..i + 1])
  {
    IncreasingAt(m, evs, i);
    if i > 0 {
      IncreasingAt(m, evs, i - 1);
      assert evs[i..][0] == evs[i];
    }
  }

  // The client

  const PAGE: nat := 500
  const MAX_PAGES: nat := 40

  /** What the table held at the last request that came through. */
  function Latest(snapshots: seq<seq<REvent>>): seq<REvent> {
    if snapshots == [] then [] else snapshots[|snapshots| - 1]
  }

  class Client {
    var seen: int
    var current: Live

    constructor (runStatus: string)
      ensures seen == 0 && current == Live(runStatus, "", "", "", [], None)
    {
      seen, current := 0, Live(runStatus, "", "", "", [], None);
    }

    method Apply(ev: REvent)
      modifies this
      ensures seen == Top(old(seen), ev) && current == Fold(old(current), if Passes(old(seen), ev) then [ev] else [])
    {
      if ev.seqNo != 0 && ev.seqNo <= seen { return; }
      if ev.seqNo != 0 { seen := ev.seqNo; }
      current := Reduce(current, ev);
    }

    /** Whatever arrives, the state is the plain fold over what passes the guard. */
    method ApplyAll(evs: seq<REvent>)
      modifies this
      ensures seen == TopAll(old(seen), evs) && current == Fold(old(current), Fresh(old(seen), evs))
    {
      hide Fold, Fresh, TopAll;
      var i := 0;
      NothingYet(seen, evs, current);
      while i < |evs|
        invariant 0 <= i <= |evs|
        invariant seen == TopAll(old(seen), evs[..i]) && current == Fold(old(current), Fresh(old(seen), evs[..i]))
      {
        OneMore(old(seen), evs, i, old(current));
        Apply(evs[i]);
        i := i + 1;
      }
      assert evs[..i] == evs;
    }

    /** One page, out of what the table holds. */
    method LoadPage(table: seq<REvent>, ghost loaded: nat, ghost start: Live) returns (size: nat)
      requires Increasing(0, table) && loaded <= |table| && seen == LastSeq(table, loaded)
      requires current == Fold(start, table[..loaded])
      modifies this
      ensures size == if |table| - loaded > PAGE then PAGE else |table| - loaded
      ensures seen == LastSeq(table, loaded + size) && current == Fold(start, table[..loaded + size])
    {
      hide Fold, Fresh, TopAll, Increasing, After;
      PageFrom(table, loaded);
      var rest := After(table, seen);
      var batch := if |rest| > PAGE then rest[..PAGE] else rest;
      PageApplies(table, loaded, loaded + |batch|, start);
      assert batch == table[loaded..loaded + |batch|];
      ApplyAll(batch);
      size := |batch|;
    }

    /** Loads the journal page by page, each page from what the table holds by then; fewer snapshots than pages
        means that a request failed, and none that the first one did. What is loaded is a prefix of the journal, each
        event applied once. */
    method LoadJournal(snapshots: seq<seq<REvent>>) returns (loaded: nat)
      requires |snapshots| <= MAX_PAGES && seen == 0
      requires forall i :: 0 <= i < |snapshots| ==> Increasing(0, snapshots[i])
      requires forall i, j :: 0 <= i < j < |snapshots| ==> snapshots[i] <= snapshots[j]
      modifies this
      ensures var journal := Latest(snapshots);
              && loaded <= |journal| && seen == LastSeq(journal, loaded)
              && current == Fold(old(current), journal[..loaded])
      ensures loaded == PAGE * |snapshots| || exists i :: 0 <= i < |snapshots| && loaded == |snapshots[i]|
    {
      ghost var journal := Latest(snapshots);
      ghost var start := current;
      hide Fold, Increasing;
      loaded := 0;
      assert journal[..0] == [];
      FoldNothing(current);
      var page := 0;
      while page < |snapshots|
        invariant 0 <= page <= |snapshots| && loaded == PAGE * page && (page > 0 ==> loaded <= |snapshots[page - 1]|)
        invariant loaded <= |journal| && seen == LastSeq(journal, loaded) && current == Fold(start, journal[..loaded])
      {
        ghost var table := snapshots[page];
        SameSoFar(table, journal, loaded);
        var size := LoadPage(snapshots[page], loaded, start);
        SameSoFar(table, journal, loaded + size);
        loaded := loaded + size;
        if size < PAGE {
          assert loaded == |snapshots[page]|;
          return;
        }
        page := page + 1;
      }
    }

    /** Opening a run: load the journal, then stream from the last number seen. The state is the plain fold over
        strictly increasing events: the whole journal at the time of the stream, then what came live. */
    method Follow(snapshots: seq<seq<REvent>>, journal: seq<REvent>, terminal: bool, ticks: seq<Tick>)
        returns (applied: seq<REvent>)
      requires |snapshots| <= MAX_PAGES && seen == 0
      requires forall i :: 0 <= i < |snapshots| ==> Increasing(0, snapshots[i])
      requires forall i, j :: 0 <= i < j < |snapshots| ==> snapshots[i] <= snapshots[j]
      requires Increasing(0, journal) && Latest(snapshots) <= journal
      modifies this
      ensures Increasing(0, applied) && current == Fold(old(current), applied)
      ensures applied == journal + if terminal then [] else LiveSent(LastSeq(journal, |journal|), ticks)
    {
      hide Fold, Fresh, Increasing, After, LiveSent, LastSeq;
      ghost var start := current;
      var loaded := LoadJournal(snapshots);
      SameSoFar(Latest(snapshots), journal, loaded);
      PageFrom(journal, loaded);
      ghost var last := seen;
      var sent := StreamRun(journal, seen, terminal, ticks);
      StreamedAfter(journal, loaded, sent, start);
      ApplyAll(sent);
      applied := journal[..loaded] + sent;
      assert journal == journal[..loaded] + journal[loaded..];
    }
  }

  lemma StreamedAfter(journal: seq<REvent>, k: nat, sent: seq<REvent>, live: Live)
    requires Increasing(0, journal) && k <= |journal| && Increasing(LastSeq(journal, k), sent)
    ensures Increasing(0, journal[..k] + sent)
    ensures Fold(Fold(live, journal[..k]), Fresh(LastSeq(journal, k), sent)) == Fold(live, journal[..k] + sent)
    ensures EndOf(LastSeq(journal, k), journal[k..]) == LastSeq(journal, |journal|)
  {
    if k < |journal| {
      IncreasingAt(0, journal, k);
      NextAbove(journal, k);
    } else {
      assert journal[..k] == journal;
      if k > 0 { NextAbove(journal, k - 1); }
    }
    assert EndOf(0, journal[..k]) == LastSeq(journal, k);
    IncreasingAppend(0, journal[..k], sent);
    IncreasingAllPass(LastSeq(journal, k), sent);
    FoldAppend(live, journal[..k], sent);
  }

  lemma SameSoFar(table: seq<REvent>, journal: seq<REvent>, k: nat)
    requires table <= journal && k <= |table|
    ensures table[..k] == journal[..k] && LastSeq(table, k) == LastSeq(journal, k)
  {}

  lemma FoldNothing(live: Live)
    ensures Fold(live, []) == live
  {}

  lemma PageFrom(table: seq<REvent>, k: nat)
    requires Increasing(0, table) && k <= |table|
    ensures After(table, LastSeq(table, k)) == table[k..]
  {
    if k > 0 { AfterLast(0, table, k); }
  }

  lemma PageApplies(table: seq<REvent>, k: nat, n: nat, live: Live)
    requires Increasing(0, table) && k <= n <= |table|
    ensures Fold(live, table[..n]) == Fold(Fold(live, table[..k]), Fresh(LastSeq(table, k), table[k..n]))
    ensures TopAll(LastSeq(table, k), table[k..n]) == LastSeq(table, n)
  {
    LastSeqIsTop(table, k, n);
    assert table[..n] == table[..k] + table[k..n];
    FoldAppend(live, table[..k], table[k..n]);
  }

  lemma NothingYet(m: int, evs: seq<REvent>, live: Live)
    ensures TopAll(m, evs[..0]) == m && Fold(live, Fresh(m, evs[..0])) == live
  {}

  lemma OneMore(m: int, evs: seq<REvent>, i: nat, live: Live)
    requires i < |evs|
    ensures TopAll(m, evs[..i + 1]) == Top(TopAll(m, evs[..i]), evs[i])
    ensures Fold(live, Fresh(m, evs[..i + 1])) ==
            Fold(Fold(live, Fresh(m, evs[..i])), if Passes(TopAll(m, evs[..i]), evs[i]) then [evs[i]] else [])
  {
    assert evs[..i + 1] == evs[..i] + [evs[i]];
    FreshAppend(m, evs[..i], [evs[i]]);
    OneFresh(TopAll(m, evs[..i]), evs[i]);
    FoldAppend(live, Fresh(m, evs[..i]), Fresh(TopAll(m, evs[..i]), [evs[i]]));
  }

  lemma OneFresh(m: int, ev: REvent)
    ensures Fresh(m, [ev]) == if Passes(m, ev) then [ev] else []
    ensures TopAll(m, [ev]) == Top(m, ev)
  {
    assert [ev][1..] == [];
  }
}
