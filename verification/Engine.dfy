/** The ReAct engine of loop.py, driven by an arbitrary model, arbitrary tools and an arbitrary cancel flag. */
module Engine {
  import opened Common
  import opened Messages
  import opened Session
  import opened Continuation
  import opened Completion
  import opened Compact
  import opened RunLog
  import opened ToolTasks

  const MAX_TRUNCATED_TOOL_CALL_REGENERATIONS: nat := 2
  const EMPTY_FINAL := "empty final response"

  datatype Piece = Text(text: string) | Reasoning(text: string)

  /** One model call: what it streams, and what it returns or raises. */
  datatype Reply =
    | Returned(pieces: seq<Piece>, result: TurnResult)
    | Raised(pieces: seq<Piece>, error: string)

  datatype Choice = Auto | NoTools

  function TextOfPieces(pieces: seq<Piece>): string {
    if pieces == [] then ""
    else TextOfPieces(pieces[..|pieces| - 1]) + if pieces[|pieces| - 1].Text? then pieces[|pieces| - 1].text else ""
  }

  /** The reasoning a model call streams. */
  function ReasoningOfPieces(pieces: seq<Piece>): string {
    if pieces == [] then ""
    else
      ReasoningOfPieces(pieces[..|pieces| - 1])
      + if pieces[|pieces| - 1].Reasoning? then pieces[|pieces| - 1].text else ""
  }

  lemma NoPieces(pieces: seq<Piece>)
    requires pieces == []
    ensures TextOfPieces(pieces) == "" && ReasoningOfPieces(pieces) == ""
  {}

  lemma OneMorePiece(pieces: seq<Piece>, i: nat)
    requires i < |pieces|
    ensures TextOfPieces(pieces[..i + 1])
         == TextOfPieces(pieces[..i]) + if pieces[i].Text? then pieces[i].text else ""
    ensures ReasoningOfPieces(pieces[..i + 1])
         == ReasoningOfPieces(pieces[..i]) + if pieces[i].Reasoning? then pieces[i].text else ""
  {
    assert pieces[..i + 1][..i] == pieces[..i];
  }

  /** The call streams its whole content or none of it. */
  predicate WholeOrNothing(reply: Reply) {
    reply.Returned? ==> TextOfPieces(reply.pieces) == reply.result.content || TextOfPieces(reply.pieces) == ""
  }

  /** The call was cut off by the output limit in a tool call. */
  predicate TruncatedCall(reply: Reply) {
    && reply.Returned? && reply.result.toolCalls != []
    && NormalizeFinish(reply.result.finishReason, true, false) == OutputLimit
  }

  datatype Sink = Live(live: LiveDeltas) | Continued(cont: ContinuationDeltas)

  ghost function Received(sink: Sink): string
    reads if sink.Live? then {sink.live as object} else {sink.cont}
  {
    if sink.Live? then sink.live.received else sink.cont.received
  }

  ghost function Forwards(sink: Sink): string
    reads if sink.Live? then {sink.live as object} else {sink.cont}
  {
    if sink.Live? then sink.live.received else sink.cont.Out()
  }

  predicate SawInput(sink: Sink)
    reads if sink.Live? then {sink.live as object} else {sink.cont}
  {
    if sink.Live? then sink.live.sawInput else sink.cont.sawInput
  }

  predicate Emitted(sink: Sink)
    reads if sink.Live? then {sink.live as object} else {sink.cont}
  {
    if sink.Live? then sink.live.emitted else sink.cont.emitted
  }

  ghost predicate ValidSink(sink: Sink, session: RunSession)
    reads if sink.Live? then {sink.live as object} else {sink.cont}
  {
    && (sink.Live? ==>
          && sink.live.session == session && (sink.live.sawInput <==> sink.live.received != "")
          && sink.live.emitted == sink.live.sawInput)
    && (sink.Continued? ==> sink.cont.session == session && sink.cont.Valid() && !sink.cont.finished)
  }

  function SinkObjects(sink: Sink): set<object> {
    if sink.Live? then {sink.live} else {sink.cont}
  }

  function SegmentVisible(content: string, overlap: nat, continuationFrom: Option<string>, sawInput: bool): string {
    if sawInput || continuationFrom.None? then VisibleText(content, overlap)
    else VisibleText(content, BoundaryOverlap(continuationFrom.value, content))
  }

  function Chunks(text: string, n: nat): seq<string>
    requires n > 0
  {
    if text == "" then [] else if |text| <= n then [text] else [text[..n]] + Chunks(text[n..], n)
  }

  lemma {:induction false} ChunksConcat(text: string, n: nat)
    requires n > 0
    ensures Concat(Chunks(text, n)) == text
  {
    if |text| > n {
      ChunksConcat(text[n..], n);
    } else if text != "" {
      assert Concat([text]) == text + Concat([]);
    }
  }

  lemma {:induction false} ChunkSizes(text: string, n: nat)
    requires n > 0
    ensures forall i :: 0 <= i < |Chunks(text, n)| ==> 0 < |Chunks(text, n)[i]| <= n
    ensures forall i :: 0 <= i < |Chunks(text, n)| - 1 ==> |Chunks(text, n)[i]| == n
  {
    if |text| > n {
      ChunkSizes(text[n..], n);
    }
  }

  /** The notes kept for an early end, joined by blank lines. */
  function Partial(notes: seq<string>): string {
    if notes == [] then ""
    else if notes[0] == "" then Partial(notes[1..])
    else if Partial(notes[1..]) == "" then notes[0]
    else notes[0] + "\n\n" + Partial(notes[1..])
  }

  /** So no note is lost: each that is not empty stands in it, after a blank line if others come before. */
  lemma {:induction false} PartialMore(notes: seq<string>, note: string)
    requires note != ""
    ensures Partial(notes + [note]) == if Partial(notes) == "" then note else Partial(notes) + "\n\n" + note
  {
    if notes == [] {
      assert [note][1..] == [];
      assert [] + [note] == [note];
    } else {
      assert (notes + [note])[1..] == notes[1..] + [note];
      PartialMore(notes[1..], note);
      assert notes[0] + "\n\n" + (Partial(notes[1..]) + "\n\n" + note)
          == notes[0] + "\n\n" + Partial(notes[1..]) + "\n\n" + note;
    }
  }

  /** What one model call contributed: its result, the text to keep of it, and whether that text is on the log. */
  datatype Segment = Segment(result: TurnResult, visible: string, said: bool)

  /** Answer: the loop goes on with this result. Ended: the run is over, with this much shown. RaisedOut: the model
      raised. */
  datatype Logical =
    | Answer(result: TurnResult, streamed: bool)
    | Ended(shown: string, hadCalls: bool, early: Early)
    | RaisedOut(error: string)

  function OrElse(s: string, t: string): string {
    if s != "" then s else t
  }

  function KindValue(kind: FinishKind): string {
    match kind
    case Completed => "completed"
    case ToolCalls => "tool_calls"
    case OutputLimit => "output_limit"
    case Filtered => "filtered"
    case Errored => "error"
    case Cancelled => "cancelled"
    case Unknown => "unknown"
  }

  /** An early end: with which status, for which reason, and whether the reason is also an error event. */
  datatype Early = Early(status: string, reason: string, loud: bool)

  /** The message is completed with the content and the run finished with the status and reason. */
  ghost predicate EndedEarly(start: seq<Event>, log: seq<Event>, text: string, n: int, turn: int, content: string,
      early: Early) {
    && |log| >= 2
    && Asked(start, Body(log), text, n, turn)
    && log[|log| - 2] == MessageCompleted(content, false)
    && log[|log| - 1] == RunFinished(early.status, NonEmpty(Some(early.reason)))
    && (early.status == "failed" || early.status == "cancelled")
    && (early.loud ==> Body(log) != [] && Body(log)[|Body(log)| - 1] == ErrorEvent(early.reason))
  }

  /** The provider's own word for a finish reason, if it gave one. */
  function Told(result: TurnResult, kind: FinishKind): string {
    if NonEmpty(result.finishReason).Some? then result.finishReason.value else KindValue(kind)
  }

  /** Whether a round ends the run: cancelled, with a finish reason that is no answer, or with one truncated
      tool call too many. */
  function EarlyEnd(result: TurnResult, cancelled: bool, toolRegens: nat): Option<Early> {
    var kind := NormalizeFinish(result.finishReason, result.toolCalls != [], cancelled);
    if cancelled || kind == Cancelled then Some(Early("cancelled", "cancelled", false))
    else if kind == Filtered || kind == Errored || kind == Unknown then
      Some(Early("failed", Told(result, kind), true))
    else if kind == OutputLimit && result.toolCalls != [] && toolRegens >= MAX_TRUNCATED_TOOL_CALL_REGENERATIONS then
      Some(Early("failed", "truncated_tool_call", true))
    else None
  }

  /** What window k was made from, when the first, w, was made from what was given. */
  function Before(given: seq<Message>, ws: seq<seq<Message>>, w: nat, k: nat): seq<Message>
    requires w <= k <= |ws|
  {
    if k == w then given else ws[k - 1]
  }

  // What a reply comes to

  /** The tool calls of a reply, unless none were asked for. */
  function CallsOf(reply: Reply, choice: Choice): seq<ToolCall>
    requires reply.Returned?
  {
    if choice == NoTools then [] else reply.result.toolCalls
  }

  function KindOf(reply: Reply, choice: Choice): FinishKind
    requires reply.Returned?
  {
    NormalizeFinish(reply.result.finishReason, CallsOf(reply, choice) != [], false)
  }

  /** The call was cut off by the output limit in its text. */
  predicate Limited(reply: Reply, choice: Choice) {
    reply.Returned? && CallsOf(reply, choice) == [] && KindOf(reply, choice) == OutputLimit
  }

  /** The call asks for tools. */
  predicate CallsTools(reply: Reply, choice: Choice) {
    reply.Returned? && CallsOf(reply, choice) != [] && KindOf(reply, choice) == ToolCalls
  }

  /** What is kept of a reply: its content, without what it repeats of the text it continues. The repetition is looked
      for in what the reply streamed, or in its content if it streamed nothing. */
  function ShownOf(reply: Reply, continuationFrom: Option<string>): string
    requires reply.Returned?
  {
    var streamed := TextOfPieces(reply.pieces);
    match continuationFrom
    case None => reply.result.content
    case Some(text) =>
      VisibleText(reply.result.content,
                  BoundaryOverlap(text, if streamed != "" then streamed else reply.result.content))
  }

  /** A round's result is that of the reply, without tool calls that were not asked for. */
  predicate SegmentOf(reply: Reply, choice: Choice, continuationFrom: Option<string>, seg: Segment) {
    && reply.Returned? && seg.visible == ShownOf(reply, continuationFrom)
    && seg.result.(content := "") == reply.result.(content := "", toolCalls := CallsOf(reply, choice))
  }

  /** The run is ended early because it is cancelled, or because of the reply. */
  predicate EarlyIs(early: Early, result: TurnResult, toolRegens: nat, cancelled: bool) {
    || (cancelled && early == Early("cancelled", "cancelled", false))
    || EarlyEnd(result, false, toolRegens) == Some(early)
  }

  /** What a logical assistant comes to is decided by its last reply. */
  predicate Decided(out: Logical, reply: Reply, choice: Choice, shown: string, regens: nat, continuations: nat,
      maxContinuations: int, cancelled: bool)
  {
    match out
    case RaisedOut(error) => reply.Raised? && reply.error == error
    case Answer(result, _) =>
      && reply.Returned? && !cancelled
      && result == reply.result.(content := shown, toolCalls := CallsOf(reply, choice))
      && (|| KindOf(reply, choice) == FinishKind.Completed || KindOf(reply, choice) == ToolCalls
          || (Limited(reply, choice) && continuations == Max0(maxContinuations)))
    case Ended(text, hadCalls, early) =>
      && reply.Returned? && text == shown && hadCalls == (CallsOf(reply, choice) != [])
      && EarlyIs(early, reply.result.(content := shown, toolCalls := CallsOf(reply, choice)), regens, cancelled)
  }

  lemma EarlyWithout(result: TurnResult, content: string, cancelled: bool, toolRegens: nat)
    ensures EarlyEnd(result.(content := content), cancelled, toolRegens) == EarlyEnd(result, cancelled, toolRegens)
  {}

  /** The result of a tool call: what the tool answered. */
  predicate IsResult(call: ToolCall, reply: ToolReply, ok: bool, text: string) {
    match reply
    case NoSuchTool => !ok && text == "unknown tool: " + call.name
    case Called(ToolError(error)) => !ok && text == error
    case Called(ToolText(answer)) => ok && text == answer
  }

  /** The text is the result, and the end event of the call reports it, cut to 180 characters if the tool succeeded. */
  predicate IsReported(call: ToolCall, reply: ToolReply, text: string, es: seq<Event>) {
    match reply
    case Called(ToolText(answer)) => text == answer && ToolFinished(call.id, true, Take(answer, 180)) in es
    case _ => IsResult(call, reply, false, text) && ToolFinished(call.id, false, text) in es
  }

  /** A turn: its number and choice, the conversation, the log, the windows and the number of model calls when it began,
      and how many calls it threw away. */
  datatype Turn = Turn(number: int, choice: Choice, given: seq<Message>, start: seq<Event>, shown: seq<seq<Message>>,
      firstCall: nat, discardedCalls: nat)

  /** The call of a turn that was kept. */
  function KeptCall(turn: Turn): nat {
    turn.firstCall + turn.discardedCalls
  }

  /** A turn that ran its tools: their results, which invocations of tools they come from, and the log afterwards. */
  datatype Ran = Ran(turn: Turn, texts: seq<string>, sources: seq<Option<nat>>, stop: seq<Event>)

  function NoteOf(content: string): seq<string> {
    if content == "" then [] else [content]
  }

  /** How a turn ended: with more to do, with the end of the run, or with an exception of the model or of a tool
      call. */
  datatype Step = GoOn | Over | Threw(error: string)

  /** A tool turn that raised: the log when it began, and what its tasks and the run have done since. */
  datatype Crash = Crash(start: seq<Event>, acts: seq<Act>)

  class Run {
    const session: RunSession
    const messages: MessageList
    const packer: ContextPacker
    const usePacker: bool
    const replies: nat -> Reply
    const toolReplies: nat -> ToolReply
    const parser: Parser
    var calls: nat
    var invocations: nat
    var notes: seq<string>
    var running: seq<ToolCall>           // the calls of the latest tool turn
    var tasks: seq<Pc>                   // and where their tasks are
    ghost var windows: seq<seq<Message>> // every window given to the model

    constructor (session: RunSession, messages: MessageList, packer: ContextPacker, usePacker: bool,
                 replies: nat -> Reply, toolReplies: nat -> ToolReply, parser: Parser)
      ensures this.session == session && this.messages == messages && this.packer == packer
      ensures this.usePacker == usePacker
      ensures this.replies == replies && this.toolReplies == toolReplies && this.parser == parser
      ensures calls == 0 && notes == [] && windows == [] && running == [] && tasks == []
    {
      this.session, this.messages, this.packer, this.usePacker := session, messages, packer, usePacker;
      this.replies, this.toolReplies, this.parser := replies, toolReplies, parser;
      calls, invocations, notes, windows, running, tasks := 0, 0, [], [], [], [];
    }

    method Feed(sink: Sink, pieces: seq<Piece>)
      requires ValidSink(sink, session) && Received(sink) == "" && Forwards(sink) == ""
      modifies session, SinkObjects(sink)
      ensures ValidSink(sink, session) && Received(sink) == TextOfPieces(pieces)
      ensures ReasoningOf(session.events) == ReasoningOf(old(session.events)) + ReasoningOfPieces(pieces)
      ensures Grew(old(session.events), session.events, Forwards(sink))
    {
      hide *;
      GrewNothing(session.events);
      NoPieces(pieces[..0]);
      NothingFed(sink);
      for i := 0 to |pieces|
        invariant ValidSink(sink, session) && Received(sink) == TextOfPieces(pieces[..i])
        invariant ReasoningOf(session.events) == ReasoningOf(old(session.events)) + ReasoningOfPieces(pieces[..i])
        invariant Grew(old(session.events), session.events, Forwards(sink))
      {
        OneMorePiece(pieces, i);
        FeedOne(sink, pieces[i], old(session.events));
      }
      assert pieces[..|pieces|] == pieces;
    }

    lemma NothingFed(sink: Sink)
      requires Forwards(sink) == "" && Received(sink) == ""
      ensures ReasoningOf(session.events) + "" == ReasoningOf(session.events)
    {}

    method FeedOne(sink: Sink, piece: Piece, ghost start: seq<Event>)
      requires ValidSink(sink, session) && Grew(start, session.events, Forwards(sink))
      modifies session, SinkObjects(sink)
      ensures ValidSink(sink, session)
      ensures Received(sink) == old(Received(sink)) + if piece.Text? then piece.text else ""
      ensures ReasoningOf(session.events)
           == ReasoningOf(old(session.events)) + if piece.Reasoning? then piece.text else ""
      ensures Grew(start, session.events, Forwards(sink))
    {
      hide Grew, ReasoningOf;
      ghost var before, forwarded := session.events, Forwards(sink);
      match piece {
        case Reasoning(text) =>
          GrewEmit(before, ReasoningDelta(text));
          session.Emit(ReasoningDelta(text));
          ReasoningSnoc(before, text);
          GrewTrans(start, before, session.events, forwarded, "");
          assert forwarded + "" == forwarded && Received(sink) + "" == Received(sink);
        case Text(text) =>
          ghost var delta: string;
          match sink {
            case Live(live) =>
              live.Emit(text);
              delta := text;
            case Continued(cont) =>
              cont.Emit(text);
              delta :| cont.Out() == forwarded + delta && Forwarded(before, session.events, delta);
          }
          ForwardedIsNoReasoning(before, session.events, delta);
          GrewTrans(start, before, session.events, forwarded, delta);
      }
    }

    /** Every window so far pairs tool calls with their results. */
    ghost predicate WindowsPaired()
      reads this`windows
    {
      forall i :: 0 <= i < |windows| ==> WellPaired(windows[i])
    }

    /** So does the list the next one is made from. */
    ghost predicate Paired()
      reads this`windows, messages
    {
      WellPaired(messages.items) && WindowsPaired()
    }

    /** One model call: the window is prepared, and perhaps compacted in place, before it is sent. */
    method Complete(list: MessageList, sink: Sink, turn: int) returns (r: Result<TurnResult>)
      requires ValidSink(sink, session) && Received(sink) == "" && Forwards(sink) == ""
      modifies this`calls, this`windows, session, packer, list, SinkObjects(sink)
      ensures calls == old(calls) + 1
      ensures Prepared(old(list.items), list.items, usePacker, packer)
      ensures windows == old(windows) + [list.items]
      ensures ValidSink(sink, session) && Received(sink) == TextOfPieces(replies(old(calls)).pieces)
      ensures Asked(old(session.events), session.events, Forwards(sink), 1, turn)
      ensures old(session.events) + [RunProgress(turn)] <= session.events
      ensures ReasoningOf(session.events)
           == ReasoningOf(old(session.events)) + ReasoningOfPieces(replies(old(calls)).pieces)
      ensures r == match replies(old(calls)) case Returned(_, result) => Ok(result) case Raised(_, error) => Err(error)
    {
      hide Grew, Asked, Prepared, ReasoningOf;
      ghost var start := session.events;
      NoReasoning(start, [RunProgress(turn)]);
      session.Emit(RunProgress(turn));
      ghost var announced := session.events;
      Prepare(list);
      GrewPrefix(announced, session.events, "");
      ghost var prepared := session.events;
      windows := windows + [list.items];
      var reply := replies(calls);
      calls := calls + 1;
      Feed(sink, reply.pieces);
      GrewPrefix(prepared, session.events, Forwards(sink));
      GrewTrans(announced, prepared, session.events, "", Forwards(sink));
      assert "" + Forwards(sink) == Forwards(sink);
      AskedOnce(start, session.events, turn, Forwards(sink));
      session.Await();
      r := match reply case Returned(_, result) => Ok(result) case Raised(_, error) => Err(error);
    }

    method Prepare(list: MessageList)
      modifies session, packer, list
      ensures Prepared(old(list.items), list.items, usePacker, packer)
      ensures Grew(old(session.events), session.events, "")
      ensures ReasoningOf(session.events) == ReasoningOf(old(session.events))
    {
      hide Grew, Packed, CompactionLogged, ReasoningOf;
      if usePacker {
        ghost var log, before := session.events, list.items;
        var window := packer.Pack(list, session);
        assert window.items == list.items;
        CompactionGrew(before, list.items, log, session.events);
      } else {
        GrewNothing(session.events);
      }
    }

    /** The temporary messages a continuation call adds after the conversation. */
    static function ContinuationPair(committed: string): seq<Message> {
      [Assistant(committed, []), User(CONTINUATION_PROMPT)]
    }

    /** The model is called with a sink for its text: on the conversation itself, which may be compacted,
        or on a copy that ends with the text to continue. */
    method CallModel(turn: int, continuationFrom: Option<string>) returns (r: Result<TurnResult>, sink: Sink)
      modifies this`calls, this`windows, session, packer, messages
      ensures calls == old(calls) + 1
      ensures |windows| == |old(windows)| + 1 && windows[..|windows| - 1] == old(windows)
      ensures old(Paired()) ==> Paired()
      ensures continuationFrom.None? ==>
        && Prepared(old(messages.items), messages.items, usePacker, packer)
        && windows[|windows| - 1] == messages.items
      ensures continuationFrom.Some? ==>
        && messages.items == old(messages.items)
        && Prepared(messages.items + ContinuationPair(continuationFrom.value), windows[|windows| - 1], usePacker,
            packer)
        && EndsWith(windows[|windows| - 1], ContinuationPair(continuationFrom.value))
      ensures fresh(SinkObjects(sink)) && ValidSink(sink, session) && SinkFor(sink, continuationFrom)
      ensures Received(sink) == TextOfPieces(replies(old(calls)).pieces)
      ensures Asked(old(session.events), session.events, Forwards(sink), 1, turn)
      ensures r == match replies(old(calls)) case Returned(_, result) => Ok(result) case Raised(_, error) => Err(error)
    {
      hide Asked, Prepared, WellPaired, EndsWith, CONTINUATION_PROMPT, ReasoningOf, ReasoningOfPieces, TextOfPieces;
      hide BoundaryOverlap, Concat, WindowTokens;
      if continuationFrom.None? {
        var live := new LiveDeltas(session);
        sink := Live(live);
        ghost var before := messages.items;
        r := Complete(messages, sink, turn);
        PreparedKeepsPairing(before, messages.items, usePacker, packer);
      } else {
        var cont := new ContinuationDeltas(session, continuationFrom.value);
        sink := Continued(cont);
        ghost var before := messages.items + ContinuationPair(continuationFrom.value);
        var list := new MessageList(messages.items + ContinuationPair(continuationFrom.value));
        r := Complete(list, sink, turn);
        PairAppended(messages.items, continuationFrom.value);
        PreparedKeepsPairing(before, list.items, usePacker, packer);
        PreparedKeepsTail(messages.items, continuationFrom.value, list.items, usePacker, packer);
      }
    }

    method FinishSink(sink: Sink, ghost start: seq<Event>, ghost turn: int) returns (overlap: nat)
      requires ValidSink(sink, session) && Asked(start, session.events, Forwards(sink), 1, turn)
      modifies session, SinkObjects(sink)
      ensures Received(sink) == old(Received(sink)) && (SawInput(sink) <==> Received(sink) != "")
      ensures sink.Live? ==> overlap == 0 && Forwards(sink) == Received(sink)
      ensures sink.Continued? ==>
        overlap == BoundaryOverlap(sink.cont.previous, Received(sink)) <= |Received(sink)|
            && Forwards(sink) == Received(sink)[overlap..]
      ensures Emitted(sink) <==> Forwards(sink) != ""
      ensures Asked(start, session.events, Forwards(sink), 1, turn)
    {
      hide Grew, Asked, BoundaryOverlap;
      match sink {
        case Live(live) =>
          overlap := 0;
        case Continued(cont) =>
          ghost var log, before := session.events, cont.Out();
          overlap := cont.Finish();
          ghost var delta :| cont.Out() == before + delta && Forwarded(log, session.events, delta);
          AskedThenGrew(start, log, session.events, before, delta, 1, turn);
      }
    }

    /** Text that did not stream is emitted at once. */
    method EmitText(text: string, ghost start: seq<Event>, ghost turn: int)
      requires Asked(start, session.events, "", 1, turn)
      modifies session
      ensures Asked(start, session.events, text, 1, turn)
    {
      hide Grew, Asked;
      GrewEmit(session.events, TextDelta(text));
      AskedThenGrew(start, session.events, session.events + [TextDelta(text)], "", text, 1, turn);
      session.Emit(TextDelta(text));
      assert "" + text == text;
    }

    /** After a call has returned: the sink is flushed, tool calls that were not asked for are dropped,
        and text that did not stream is emitted at once. */
    method Show(ghost reply: Reply, called: TurnResult, sink: Sink, choice: Choice, continuationFrom: Option<string>,
        ghost start: seq<Event>, ghost turn: int)
      returns (seg: Segment, ghost text: string)
      requires reply.Returned? && called == reply.result && Received(sink) == TextOfPieces(reply.pieces)
      requires ValidSink(sink, session) && SinkFor(sink, continuationFrom)
      requires continuationFrom.Some? ==> choice.NoTools?
      requires Asked(start, session.events, Forwards(sink), 1, turn)
      modifies session, SinkObjects(sink)
      ensures Asked(start, session.events, text, 1, turn)
      ensures AttemptOutcome(reply, seg, choice, continuationFrom, text)
    {
      hide Grew, Asked, BoundaryOverlap, TextOfPieces, SegmentVisible, AttemptOutcome;
      var overlap := FinishSink(sink, start, turn);
      ghost var forwarded := Forwards(sink);
      text := forwarded;
      var visible := SegmentVisible(called.content, overlap, continuationFrom, SawInput(sink));
      var result := called;
      if choice == NoTools && called.toolCalls != [] {
        result := called.(content := visible, toolCalls := []);
      }
      var said := Emitted(sink);
      if visible != "" && !SawInput(sink) && result.toolCalls == [] {
        said := true;
        EmitText(visible, start, turn);
        text := visible;
      }
      seg := Segment(result, visible, said);
      Shown(reply, seg, choice, continuationFrom, overlap, forwarded, text);
    }

    /** The calls of this range stream their whole content or none of it. */
    ghost predicate Whole(from: nat, to: nat) {
      forall i: nat :: from <= i < to ==> WholeOrNothing(replies(i))
    }

    /** The calls of this range were all cut off in a tool call. */
    ghost predicate AllTruncated(from: nat, to: nat) {
      forall i: nat :: from <= i < to ==> TruncatedCall(replies(i))
    }

    /** What the calls of this range streamed. */
    function SaidBy(from: nat, to: nat): string
      decreases to
    {
      if to <= from then "" else SaidBy(from, to - 1) + TextOfPieces(replies(to - 1).pieces)
    }

    method FinishRun(status: string, content: string, error: Option<string>)
      modifies session
      ensures session.events == old(session.events) +
          [MessageCompleted(content, false), RunFinished(status, NonEmpty(error))]
      ensures old(session.Cancelled()) ==> session.Cancelled()
    {
      session.Emit(MessageCompleted(content, false));
      session.Emit(RunFinished(status, NonEmpty(error)));
    }

    /** An early end: what was shown so far, or else the notes, completes the message. */
    method EndEarly(early: Early, shown: string, ghost start: seq<Event>, ghost text: string, ghost n: nat,
        ghost turn: int)
      requires Asked(start, session.events, text, n, turn) && n > 0
      requires early.status == "failed" || early.status == "cancelled"
      modifies session
      ensures EndedEarly(start, session.events, text, n, turn, OrElse(shown, Partial(notes)), early)
      ensures old(session.Cancelled()) ==> session.Cancelled()
      ensures old(session.events) <= session.events
    {
      hide Grew, Asked;
      ghost var log := session.events;
      if early.loud {
        GrewEmit(log, ErrorEvent(early.reason));
        session.Emit(ErrorEvent(early.reason));
      } else {
        GrewNothing(log);
      }
      AskedThenGrew(start, log, session.events, text, "", n, turn);
      assert text + "" == text;
      ghost var mid := session.events;
      FinishRun(early.status, OrElse(shown, Partial(notes)), Some(early.reason));
      assert Body(session.events) == mid;
    }

    /** After a round: a cancelled run, a bad finish, or one truncated tool call too many ends it early. */
    method Settle(seg: Segment, committed: string, toolRegens: nat, ghost start: seq<Event>, ghost text: string,
        ghost n: nat, ghost turn: int)
      returns (kind: FinishKind, early: Option<Early>)
      requires Asked(start, session.events, text, n, turn) && n > 0
      modifies session
      ensures early.Some? ==> EarlyIs(early.value, seg.result, toolRegens, session.Cancelled())
      ensures early.None? ==> !session.Cancelled() && EarlyEnd(seg.result, false, toolRegens).None?
      ensures old(session.events) <= session.events
      ensures early.Some? ==> EndedEarly(start, session.events, text, n, turn,
          OrElse(committed + seg.visible, Partial(notes)), early.value)
      ensures early.None? ==>
        && session.events == old(session.events)
        && kind == NormalizeFinish(seg.result.finishReason, seg.result.toolCalls != [], false)
        && (kind == OutputLimit && seg.result.toolCalls != [] ==> toolRegens < MAX_TRUNCATED_TOOL_CALL_REGENERATIONS)
    {
      hide Asked, EndedEarly, NormalizeFinish, Partial, OrElse;
      kind := NormalizeFinish(seg.result.finishReason, seg.result.toolCalls != [], session.Cancelled());
      early := None;
      if session.Cancelled() || kind == Cancelled {
        early := Some(Early("cancelled", "cancelled", false));
      } else if kind == Filtered || kind == Errored || kind == Unknown {
        early := Some(Early("failed", Told(seg.result, kind), true));
      } else if kind == OutputLimit && seg.result.toolCalls != []
                && toolRegens >= MAX_TRUNCATED_TOOL_CALL_REGENERATIONS {
        early := Some(Early("failed", "truncated_tool_call", true));
      }
      if early.Some? {
        EndEarly(early.value, committed + seg.visible, start, text, n, turn);
      }
    }

    /** A continuation is announced. */
    method Announce(attempt: nat, maxAttempts: int, reason: Option<string>, ghost start: seq<Event>, ghost text: string,
        ghost n: nat, ghost turn: int)
      requires Asked(start, session.events, text, n, turn) && n > 0
      modifies session
      ensures session.events == old(session.events) + [OutputContinuation(attempt, maxAttempts, NonEmpty(reason))]
      ensures Asked(start, session.events, text, n, turn)
    {
      hide Grew, Asked;
      var note := OutputContinuation(attempt, maxAttempts, NonEmpty(reason));
      GrewEmit(session.events, note);
      AskedThenGrew(start, session.events, session.events + [note], text, "", n, turn);
      assert text + "" == text;
      session.Emit(note);
    }

    /** One logical assistant message: rounds of model calls, text continued in place at the output limit,
        truncated tool calls thrown away and asked for again. The calls thrown away come first, then one on the
        conversation itself, then the continuations. */
    method LogicalAssistant(turn: int, toolChoice: Choice, maxContinuations: int)
      returns (out: Logical, ghost regens: nat, ghost continuations: nat, ghost text: string)
      modifies this`calls, this`windows, session, packer, messages
      ensures calls == old(calls) + regens + 1 + continuations
      ensures regens <= if toolChoice == NoTools then 0 else MAX_TRUNCATED_TOOL_CALL_REGENERATIONS
      ensures continuations <= Max0(maxContinuations)
      ensures Rounds(old(windows), windows, calls - old(calls), regens)
      ensures AllTruncated(old(calls), old(calls) + regens)
      ensures old(Paired()) ==> Paired()
      ensures !out.Ended? ==> Asked(old(session.events), session.events, text, calls - old(calls), turn)
      ensures out.Ended? ==> EndedEarly(old(session.events), session.events, text, calls - old(calls), turn,
          OrElse(out.shown, Partial(notes)), out.early)
      ensures Decided(out, replies(calls - 1), if continuations > 0 then NoTools else toolChoice,
          Joined(old(calls) + regens, calls), regens, continuations, maxContinuations, session.Cancelled())
      ensures AllLimited(old(calls) + regens, calls - 1, toolChoice)
      ensures AllAnnounced(old(calls) + regens, calls - 1, maxContinuations, session.events)
      ensures Talked(old(messages.items), messages.items, windows, |old(windows)|, regens + 1)
      ensures Whole(old(calls) + regens, calls) ==> LogicalText(out, SaidBy(old(calls), old(calls) + regens), text)
    {
      hide *;
      Max0Is(maxContinuations);
      var committed := "";
      var continuationCount, toolRegens := 0, 0;
      var choice := toolChoice;
      var continuationFrom: Option<string> := None;
      var streamed := false;
      ghost var start, from := session.events, calls;
      text, continuations, regens := "", 0, 0;
      AskedNothing(start, turn);
      NoRounds(calls, windows);
      NothingSaid(from);
      NothingKept(from, toolChoice);
      NoneAnnounced(from, maxContinuations, start);
      NothingTalked(messages.items, windows);
      ghost var given := messages.items;
      while true
        invariant Asked(start, session.events, text, calls - from, turn)
        invariant old(Paired()) ==> Paired()
        invariant calls == from + toolRegens + continuationCount
        invariant continuations == continuationCount <= Max0(maxContinuations)
        invariant regens == toolRegens <= if toolChoice == NoTools then 0 else MAX_TRUNCATED_TOOL_CALL_REGENERATIONS
        invariant Rounds(old(windows), windows, calls - from, regens) && AllTruncated(from, from + regens)
        invariant continuationFrom.Some? ==> choice == NoTools && continuationFrom.value == committed
        invariant continuationFrom.None? ==>
          choice == toolChoice && committed == "" && !streamed && continuationCount == 0
        invariant SaidSoFar(from, regens, calls, continuationFrom.None?, committed, streamed, text)
        invariant continuationFrom.Some? ==> continuationCount > 0
        invariant KeptSoFar(from + regens, calls, toolChoice, committed)
        invariant AllAnnounced(from + regens, calls, maxContinuations, session.events)
        invariant Talked(given, messages.items, windows, |old(windows)|,
                         if continuationFrom.None? then regens else regens + 1)
        decreases Max0(maxContinuations) - continuationCount + MAX_TRUNCATED_TOOL_CALL_REGENERATIONS - toolRegens
      {
        var r, kind, early;
        ghost var last, before, said, asked := calls, streamed, text, choice;
        ghost var log := session.events;
        r, kind, early, text := NextRound(turn, choice, continuationFrom, committed, toolRegens, toolChoice, streamed,
            start, text, old(windows), from, given);
        StillAnnounced(from + regens, last, maxContinuations, log, session.events);
        if r.Err? {
          ReturnsRaised(from, regens, last, r.error, asked, text, continuations, maxContinuations);
          return RaisedOut(r.error), regens, continuations, text;
        }
        var result, visible := r.value.result, r.value.visible;
        streamed := streamed || r.value.said;
        if early.Some? {
          ReturnsEarly(from, regens, last, r.value, asked, continuationFrom, committed, before, text, early.value,
              continuations, maxContinuations);
          return Ended(committed + visible, result.toolCalls != [], early.value), regens, continuations, text;
        }
        if kind == OutputLimit && result.toolCalls != [] {
          ThrowsAway(from, regens, last, old(windows), toolChoice, committed, before, said, text, maxContinuations);
          toolRegens := toolRegens + 1;
          regens := toolRegens;
          streamed := false;
        } else if kind == OutputLimit {
          LimitedReply(r.value, replies(last), asked, continuationFrom);
          if continuationCount >= maxContinuations {
            Returns(from, regens, last, r.value, asked, continuationFrom, committed, before, text, committed + visible,
                continuations, maxContinuations);
            return Answer(result.(content := committed + visible), streamed), regens, continuations, text;
          }
          KeepsOn(from, regens, last, toolChoice, r.value, committed, before, text);
          committed := committed + visible;
          continuationCount := continuationCount + 1;
          continuations := continuationCount;
          ghost var events := session.events;
          Announce(continuationCount, maxContinuations, result.finishReason, start, text, calls - from, turn);
          OneMoreAnnounced(from + regens, last, maxContinuations, events, r.value, asked, continuationFrom);
          choice := NoTools;
          continuationFrom := Some(committed);
        } else if result.toolCalls != [] {
          assert committed + visible == visible;
          Returns(from, regens, last, r.value, asked, continuationFrom, committed, before, text, visible, continuations,
              maxContinuations);
          return Answer(result.(content := visible), streamed), regens, continuations, text;
        } else {
          Returns(from, regens, last, r.value, asked, continuationFrom, committed, before, text, committed + visible,
              continuations, maxContinuations);
          return Answer(result.(content := committed + visible), streamed), regens, continuations, text;
        }
      }
    }

    lemma Max0Is(n: int)
      ensures Max0(n) == if n < 0 then 0 else n
      ensures MAX_TRUNCATED_TOOL_CALL_REGENERATIONS == 2
    {}

    /** One more round, with what it makes of the text, the kept calls and the conversation so far. */
    method NextRound(turn: int, choice: Choice, continuationFrom: Option<string>, committed: string, toolRegens: nat,
        ghost toolChoice: Choice, ghost streamed: bool, ghost start: seq<Event>, ghost said: string,
        ghost ws0: seq<seq<Message>>, ghost from: nat, ghost given: seq<Message>)
      returns (r: Result<Segment>, kind: FinishKind, early: Option<Early>, ghost text: string)
      requires from + toolRegens <= calls && Rounds(ws0, windows, calls - from, toolRegens)
      requires Asked(start, session.events, said, calls - from, turn)
      requires continuationFrom == if calls == from + toolRegens then None else Some(committed)
      requires choice == if calls == from + toolRegens then toolChoice else NoTools
      requires SaidSoFar(from, toolRegens, calls, continuationFrom.None?, committed, streamed, said)
      requires KeptSoFar(from + toolRegens, calls, toolChoice, committed)
      requires Talked(given, messages.items, windows, |ws0|,
                      if continuationFrom.None? then toolRegens else toolRegens + 1)
      modifies this`calls, this`windows, session, packer, messages
      ensures calls == old(calls) + 1
      ensures Rounds(ws0, windows, calls - from, toolRegens)
      ensures old(Paired()) ==> Paired()
      ensures r.Err? || early.None? ==> Asked(start, session.events, text, calls - from, turn)
      ensures r.Ok? && early.Some? ==> EndedEarly(start, session.events, text, calls - from, turn,
          OrElse(committed + r.value.visible, Partial(notes)), early.value)
      ensures r.Ok? && early.None? && kind == OutputLimit && r.value.result.toolCalls != [] ==>
        TruncatedCall(replies(old(calls))) && toolRegens < MAX_TRUNCATED_TOOL_CALL_REGENERATIONS
      ensures Talked(given, messages.items, windows, |ws0|, toolRegens + 1)
      ensures AllLimited(from + toolRegens, old(calls), toolChoice)
      ensures old(session.events) <= session.events
      ensures r.Err? ==> replies(old(calls)).Raised? && replies(old(calls)).error == r.error
      ensures r.Ok? ==>
        && SegmentOf(replies(old(calls)), choice, continuationFrom, r.value)
        && (early.Some? ==> EarlyIs(early.value, r.value.result, toolRegens, session.Cancelled()))
        && (early.None? ==>
              !session.Cancelled() && EarlyEnd(r.value.result, false, toolRegens).None?
              && kind == KindOf(replies(old(calls)), choice))
        && Joined(from + toolRegens, calls) == committed + r.value.visible
        && (r.value.result.toolCalls != [] ==>
              && choice != NoTools && continuationFrom.None? && committed == "" && !streamed
              && text == said + TextOfPieces(replies(old(calls)).pieces))
        && SaidAfter(from, toolRegens, calls, r.value, committed, streamed, text, early)
    {
      hide Asked, EndedEarly, EarlyEnd, WholeOrNothing, BoundaryOverlap, NormalizeFinish, Partial, OrElse;
      hide Rounds, Paired, Prepared, ShownOf, SegmentOf, EarlyIs, RoundText, TruncatedCall, KindOf, Talked, SaidAfter;
      ghost var last, items, shown := calls, messages.items, windows;
      RoundsCount(ws0, windows, calls - from, toolRegens);
      FirstSaid(from, toolRegens, calls, continuationFrom.None?, committed, streamed, said);
      KeptEnough(from + toolRegens, calls, toolChoice, committed);
      hide SaidSoFar, KeptSoFar;
      r, kind, early, text := Round(turn, choice, continuationFrom, committed, toolRegens, start, said, ws0, from);
      if continuationFrom.None? {
        TalkedMore(given, items, messages.items, shown, windows, |ws0|, toolRegens);
      } else {
        TalkedOn(given, items, shown, windows, |ws0|, toolRegens + 1);
      }
      if r.Ok? {
        JoinedMore(from + toolRegens, last, toolChoice, committed, choice, r.value);
        RoundSaid(from, toolRegens, last, continuationFrom.None?, r.value, committed, streamed, said, text, early);
      }
    }

    /** One round: a model call, what is shown of it, and whether it ends the run. */
    method Round(turn: int, choice: Choice, continuationFrom: Option<string>, committed: string, toolRegens: nat,
        ghost start: seq<Event>, ghost said: string, ghost ws0: seq<seq<Message>>, ghost calls0: nat)
      returns (r: Result<Segment>, kind: FinishKind, early: Option<Early>, ghost text: string)
      requires continuationFrom.Some? ==> choice.NoTools?
      requires calls0 <= calls && Rounds(ws0, windows, calls - calls0, toolRegens)
      requires Asked(start, session.events, said, calls - calls0, turn)
      requires calls - calls0 > toolRegens ==> continuationFrom.Some?
      modifies this`calls, this`windows, session, packer, messages
      ensures calls == old(calls) + 1
      ensures Rounds(ws0, windows, calls - calls0, toolRegens)
      ensures old(Paired()) ==> Paired()
      ensures r.Err? || early.None? ==> Asked(start, session.events, text, calls - calls0, turn)
      ensures r.Ok? && early.Some? ==> EndedEarly(start, session.events, text, calls - calls0, turn,
          OrElse(committed + r.value.visible, Partial(notes)), early.value)
      ensures r.Ok? && early.None? && kind == OutputLimit && r.value.result.toolCalls != [] ==>
        TruncatedCall(replies(old(calls))) && toolRegens < MAX_TRUNCATED_TOOL_CALL_REGENERATIONS
      ensures continuationFrom.Some? ==> messages.items == old(messages.items)
      ensures continuationFrom.None? ==>
        && messages.items == windows[|old(windows)|]
        && Prepared(old(messages.items), messages.items, usePacker, packer)
      ensures |windows| == |old(windows)| + 1 && windows[..|old(windows)|] == old(windows)
      ensures old(session.events) <= session.events
      ensures r.Err? ==> replies(old(calls)).Raised? && replies(old(calls)).error == r.error
      ensures r.Ok? ==>
        && SegmentOf(replies(old(calls)), choice, continuationFrom, r.value)
        && (early.Some? ==> EarlyIs(early.value, r.value.result, toolRegens, session.Cancelled()))
        && (early.None? ==>
              && !session.Cancelled() && EarlyEnd(r.value.result, false, toolRegens).None?
              && kind == KindOf(replies(old(calls)), choice))
      ensures r.Ok? && r.value.result.toolCalls != [] ==>
        && choice != NoTools && replies(old(calls)).Returned? && r.value.result == replies(old(calls)).result
        && text == said + TextOfPieces(replies(old(calls)).pieces)
      ensures r.Ok? && WholeOrNothing(replies(old(calls))) ==> RoundText(r.value, said, text)
    {
      hide Asked, EndedEarly, EarlyEnd, WholeOrNothing, BoundaryOverlap, NormalizeFinish, Partial, OrElse;
      hide Rounds, AttemptOutcome, Paired, Prepared, ShownOf, EarlyIs;
      ghost var before, shown, from := session.events, windows, calls;
      ghost var piece;
      r, piece := Attempt(turn, choice, continuationFrom);
      OneMoreRound(ws0, shown, windows, from - calls0, toolRegens);
      AskedTrans(start, before, session.events, said, piece, from - calls0, 1, turn);
      AskedPrefix(before, session.events, piece, 1, turn);
      text := said + piece;
      kind, early := Unknown, None;
      if r.Ok? {
        RoundOutcome(replies(from), r.value, choice, continuationFrom, said, piece);
        kind, early := Settle(r.value, committed, toolRegens, start, text, calls - calls0, turn);
        assert early.None? && kind == OutputLimit && r.value.result.toolCalls != [] ==> TruncatedCall(replies(from));
      }
    }

    /** Between rounds, after the calls before upTo: what the discarded calls said is on the log, and then, if the kept
        calls stream wholly or not at all, what is committed. */
    ghost predicate SaidSoFar(from: nat, regens: nat, upTo: nat, first: bool, committed: string, streamed: bool,
        text: string)
    {
      && (first ==> text == SaidBy(from, from + regens) && committed == "" && !streamed)
      && (Whole(from + regens, upTo) ==>
            text == SaidBy(from, from + regens) + committed && (committed != "" ==> streamed))
    }

    lemma NothingSaid(from: nat)
      ensures SaidSoFar(from, 0, from, true, "", false, "")
    {}

    /** A call was thrown away. */
    lemma OneMoreSaid(from: nat, regens: nat, last: nat, committed: string, streamed: bool, said: string, text: string)
      requires last == from + regens && SaidSoFar(from, regens, last, true, committed, streamed, said)
      requires text == said + TextOfPieces(replies(last).pieces)
      ensures SaidSoFar(from, regens + 1, last + 1, true, "", false, text)
    {
      assert text + "" == text;
    }

    /** What a round makes of the text: of an early end, of an answer, and of what is kept to go on with. */
    ghost predicate SaidAfter(from: nat, regens: nat, upTo: nat, seg: Segment, committed: string, streamed: bool,
        text: string, early: Option<Early>)
    {
      var content, streamed' := committed + seg.visible, streamed || seg.said;
      var before := SaidBy(from, from + regens);
      && (Whole(from + regens, upTo) ==>
            && (early.Some? ==> LogicalText(Ended(content, seg.result.toolCalls != [], early.value), before, text))
            && LogicalText(Answer(seg.result.(content := content), streamed'), before, text))
      && (seg.result.toolCalls == [] ==> SaidSoFar(from, regens, upTo, false, content, streamed', text))
    }

    lemma FirstSaid(from: nat, regens: nat, upTo: nat, first: bool, committed: string, streamed: bool, text: string)
      requires SaidSoFar(from, regens, upTo, first, committed, streamed, text)
      ensures first ==> committed == "" && !streamed
    {}

    /** A call was kept. */
    lemma RoundSaid(from: nat, regens: nat, last: nat, first: bool, seg: Segment, committed: string, streamed: bool,
        said: string, text: string, early: Option<Early>)
      requires from + regens <= last && SaidSoFar(from, regens, last, first, committed, streamed, said)
      requires WholeOrNothing(replies(last)) ==> RoundText(seg, said, text)
      requires seg.result.toolCalls != [] ==> first
      ensures SaidAfter(from, regens, last + 1, seg, committed, streamed, text, early)
    {
      hide LogicalText, RoundText, WholeOrNothing;
      if Whole(from + regens, last + 1) {
        AfterRound(seg, SaidBy(from, from + regens), committed, streamed, said, text, early);
      }
    }

    lemma SaidOn(from: nat, regens: nat, upTo: nat, seg: Segment, committed: string, streamed: bool, text: string,
        early: Option<Early>)
      requires SaidAfter(from, regens, upTo, seg, committed, streamed, text, early) && seg.result.toolCalls == []
      ensures SaidSoFar(from, regens, upTo, false, committed + seg.visible, streamed || seg.said, text)
    {}

    lemma Returns(from: nat, regens: nat, last: nat, seg: Segment, asked: Choice, continuationFrom: Option<string>,
        committed: string, streamed: bool, text: string, content: string, continuations: nat, maxContinuations: int)
      requires SaidAfter(from, regens, last + 1, seg, committed, streamed, text, None)
      requires content == committed + seg.visible
      requires SegmentOf(replies(last), asked, continuationFrom, seg) && EarlyEnd(seg.result, false, regens).None?
      requires KindOf(replies(last), asked) == OutputLimit ==>
        seg.result.toolCalls == [] && continuations == Max0(maxContinuations)
      ensures
        var out := Answer(seg.result.(content := content), streamed || seg.said);
        && (Whole(from + regens, last + 1) ==> LogicalText(out, SaidBy(from, from + regens), text))
        && Decided(out, replies(last), asked, content, regens, continuations, maxContinuations, false)
    {
      hide *;
      SaidAtEnd(from, regens, last + 1, seg, committed, streamed, text, None, content);
      DecidedAnswer(seg, replies(last), asked, continuationFrom, content, streamed || seg.said, regens, continuations,
          maxContinuations, false);
    }

    lemma ReturnsEarly(from: nat, regens: nat, last: nat, seg: Segment, asked: Choice, continuationFrom: Option<string>,
        committed: string, streamed: bool, text: string, early: Early, continuations: nat, maxContinuations: int)
      requires SaidAfter(from, regens, last + 1, seg, committed, streamed, text, Some(early))
      requires SegmentOf(replies(last), asked, continuationFrom, seg)
      requires EarlyIs(early, seg.result, regens, session.Cancelled())
      ensures
        var out := Ended(committed + seg.visible, seg.result.toolCalls != [], early);
        && (Whole(from + regens, last + 1) ==> LogicalText(out, SaidBy(from, from + regens), text))
        && Decided(out, replies(last), asked, committed + seg.visible, regens, continuations, maxContinuations,
            session.Cancelled())
    {
      hide *;
      SaidAtEnd(from, regens, last + 1, seg, committed, streamed, text, Some(early), committed + seg.visible);
      DecidedEarly(early, seg, replies(last), asked, continuationFrom, committed + seg.visible, regens, continuations,
          maxContinuations, session.Cancelled());
    }

    lemma ReturnsRaised(from: nat, regens: nat, last: nat, error: string, asked: Choice, text: string,
        continuations: nat, maxContinuations: int)
      requires replies(last).Raised? && replies(last).error == error
      ensures LogicalText(RaisedOut(error), SaidBy(from, from + regens), text)
      ensures Decided(RaisedOut(error), replies(last), asked, Joined(from + regens, last + 1), regens, continuations,
          maxContinuations, session.Cancelled())
    {
      DecidedRaised(error, replies(last), asked, Joined(from + regens, last + 1), regens, continuations,
          maxContinuations, session.Cancelled());
      RaisedText(error, SaidBy(from, from + regens), text);
      hide *;
    }

    lemma ThrowsAway(from: nat, regens: nat, last: nat, ws0: seq<seq<Message>>, toolChoice: Choice, committed: string,
        streamed: bool, said: string, text: string, maxContinuations: int)
      requires calls == last + 1 && last == from + regens && TruncatedCall(replies(last))
      requires AllTruncated(from, last) && Rounds(ws0, windows, calls - from, regens)
      requires SaidSoFar(from, regens, last, true, committed, streamed, said)
      requires text == said + TextOfPieces(replies(last).pieces)
      ensures AllTruncated(from, from + regens + 1) && Rounds(ws0, windows, calls - from, regens + 1)
      ensures SaidSoFar(from, regens + 1, calls, true, "", false, text) && KeptSoFar(calls, calls, toolChoice, "")
      ensures AllAnnounced(calls, calls, maxContinuations, session.events)
    {
      hide *;
      OneMoreTruncated(from, last, ws0, windows, calls - from, regens);
      OneMoreSaid(from, regens, last, committed, streamed, said, text);
      NothingKept(calls, toolChoice);
      NoneAnnounced(calls, maxContinuations, session.events);
    }

    lemma KeepsOn(from: nat, regens: nat, last: nat, toolChoice: Choice, seg: Segment, committed: string,
        streamed: bool, text: string)
      requires from + regens <= last && KeptSoFar(from + regens, last, toolChoice, committed)
      requires Joined(from + regens, last + 1) == committed + seg.visible
      requires Limited(replies(last), if last == from + regens then toolChoice else NoTools)
      requires SaidAfter(from, regens, last + 1, seg, committed, streamed, text, None) && seg.result.toolCalls == []
      ensures KeptSoFar(from + regens, last + 1, toolChoice, committed + seg.visible)
      ensures SaidSoFar(from, regens, last + 1, false, committed + seg.visible, streamed || seg.said, text)
    {
      hide *;
      KeptMore(from + regens, last, toolChoice, committed, seg);
      SaidOn(from, regens, last + 1, seg, committed, streamed, text, None);
    }

    /** What follows from it when the logical assistant is through. */
    lemma SaidAtEnd(from: nat, regens: nat, upTo: nat, seg: Segment, committed: string, streamed: bool, text: string,
        early: Option<Early>, content: string)
      requires SaidAfter(from, regens, upTo, seg, committed, streamed, text, early)
      requires content == committed + seg.visible
      ensures Whole(from + regens, upTo) ==>
        var before := SaidBy(from, from + regens);
        && (early.Some? ==> LogicalText(Ended(content, seg.result.toolCalls != [], early.value), before, text))
        && LogicalText(Answer(seg.result.(content := content), streamed || seg.said), before, text)
    {}

    /** The text of the calls of this range, each continuing the text so far. */
    function Joined(from: nat, to: nat): string
      decreases to
    {
      if to <= from || replies(to - 1).Raised? then ""
      else Joined(from, to - 1)
           + ShownOf(replies(to - 1), if to - 1 == from then None else Some(Joined(from, to - 1)))
    }

    /** The calls of this range were all cut off in their text; the first one was asked with this choice, the others
        without tools. */
    ghost predicate AllLimited(from: nat, to: nat, choice: Choice) {
      forall k: nat :: from <= k < to ==> Limited(replies(k), if k == from then choice else NoTools)
    }

    /** Each call of this range, cut off in its text, was followed by the announcement of its continuation. */
    ghost predicate AllAnnounced(from: nat, to: nat, maxContinuations: int, es: seq<Event>) {
      forall k: nat :: from <= k < to ==>
        && replies(k).Returned?
        && OutputContinuation(k - from + 1, maxContinuations, NonEmpty(replies(k).result.finishReason)) in es
    }

    lemma NoneAnnounced(at: nat, maxContinuations: int, es: seq<Event>)
      ensures AllAnnounced(at, at, maxContinuations, es)
    {}

    lemma StillAnnounced(from: nat, to: nat, maxContinuations: int, es: seq<Event>, es': seq<Event>)
      requires AllAnnounced(from, to, maxContinuations, es) && es <= es'
      ensures AllAnnounced(from, to, maxContinuations, es')
    {}

    lemma OneMoreAnnounced(from: nat, last: nat, maxContinuations: int, es: seq<Event>, seg: Segment, choice: Choice,
        continuationFrom: Option<string>)
      requires from <= last && AllAnnounced(from, last, maxContinuations, es)
      requires SegmentOf(replies(last), choice, continuationFrom, seg)
      ensures AllAnnounced(from, last + 1, maxContinuations,
          es + [OutputContinuation(last - from + 1, maxContinuations, NonEmpty(seg.result.finishReason))])
    {
      hide NonEmpty, ShownOf, CallsOf;
      var e := OutputContinuation(last - from + 1, maxContinuations, NonEmpty(seg.result.finishReason));
      assert (es + [e])[|es|] == e;
      StillAnnounced(from, last, maxContinuations, es, es + [e]);
    }

    /** The calls kept so far were cut off in their text, and this is that text. */
    ghost predicate KeptSoFar(kept: nat, upTo: nat, choice: Choice, committed: string) {
      committed == Joined(kept, upTo) && AllLimited(kept, upTo, choice)
    }

    lemma NothingKept(at: nat, choice: Choice)
      ensures KeptSoFar(at, at, choice, "") && AllLimited(at, at, choice)
    {}

    lemma KeptEnough(kept: nat, upTo: nat, choice: Choice, committed: string)
      requires KeptSoFar(kept, upTo, choice, committed)
      ensures AllLimited(kept, upTo, choice)
    {}

    lemma JoinedMore(kept: nat, last: nat, choice: Choice, committed: string, asked: Choice, seg: Segment)
      requires kept <= last && KeptSoFar(kept, last, choice, committed)
      requires SegmentOf(replies(last), asked, if last == kept then None else Some(committed), seg)
      ensures Joined(kept, last + 1) == committed + seg.visible && AllLimited(kept, last, choice)
    {}

    lemma KeptMore(kept: nat, last: nat, choice: Choice, committed: string, seg: Segment)
      requires kept <= last && KeptSoFar(kept, last, choice, committed)
      requires Joined(kept, last + 1) == committed + seg.visible
      requires Limited(replies(last), if last == kept then choice else NoTools)
      ensures KeptSoFar(kept, last + 1, choice, committed + seg.visible)
    {}

    /** Windows from w on, n of them, were made one from the other, the first from what was given; these are the
        messages now. */
    ghost predicate Talked(given: seq<Message>, items: seq<Message>, ws: seq<seq<Message>>, w: nat, n: nat) {
      && w + n <= |ws| && items == (if n == 0 then given else ws[w + n - 1])
      && forall k :: w <= k < w + n ==> Prepared(Before(given, ws, w, k), ws[k], usePacker, packer)
    }

    lemma NothingTalked(given: seq<Message>, ws: seq<seq<Message>>)
      ensures Talked(given, given, ws, |ws|, 0)
    {}

    lemma TalkedMore(given: seq<Message>, items: seq<Message>, items': seq<Message>, ws: seq<seq<Message>>,
        ws': seq<seq<Message>>, w: nat, n: nat)
      requires Talked(given, items, ws, w, n) && w + n == |ws| && |ws'| == |ws| + 1 && ws'[..|ws|] == ws
      requires items' == ws'[|ws|] && Prepared(items, items', usePacker, packer)
      ensures Talked(given, items', ws', w, n + 1)
    {
      hide Prepared;
      TalkedOn(given, items, ws, ws', w, n);
      assert Before(given, ws', w, w + n) == items;
    }

    lemma SameBefore(given: seq<Message>, ws: seq<seq<Message>>, ws': seq<seq<Message>>, w: nat, k: nat)
      requires w <= k < |ws| <= |ws'| && ws'[..|ws|] == ws
      ensures Before(given, ws', w, k) == Before(given, ws, w, k) && ws'[k] == ws[k]
    {
      assert k > w ==> ws'[k - 1] == ws[k - 1];
    }

    lemma TalkedOn(given: seq<Message>, items: seq<Message>, ws: seq<seq<Message>>, ws': seq<seq<Message>>,
        w: nat, n: nat)
      requires Talked(given, items, ws, w, n) && |ws| <= |ws'| && ws'[..|ws|] == ws
      ensures Talked(given, items, ws', w, n)
    {
      hide Prepared, Before;
      assert n > 0 ==> ws'[w + n - 1] == ws[w + n - 1];
      forall k | w <= k < w + n ensures Prepared(Before(given, ws', w, k), ws'[k], usePacker, packer) {
        SameBefore(given, ws, ws', w, k);
        assert Prepared(Before(given, ws, w, k), ws[k], usePacker, packer);
      }
    }

    lemma NoRounds(at: nat, ws: seq<seq<Message>>)
      ensures Rounds(ws, ws, 0, 0) && AllTruncated(at, at)
    {}

    lemma OneMoreRound(ws0: seq<seq<Message>>, ws: seq<seq<Message>>, ws': seq<seq<Message>>, n: nat, regens: nat)
      requires Rounds(ws0, ws, n, regens) && |ws'| == |ws| + 1 && ws'[..|ws|] == ws
      requires n > regens ==> Continuing(ws'[|ws|])
      ensures Rounds(ws0, ws', n + 1, regens)
    {}

    lemma OneMoreTruncated(from: nat, last: nat, ws0: seq<seq<Message>>, ws: seq<seq<Message>>, n: nat, regens: nat)
      requires AllTruncated(from, last) && TruncatedCall(replies(last)) && Rounds(ws0, ws, n, regens)
      ensures AllTruncated(from, last + 1) && Rounds(ws0, ws, n, regens + 1)
    {}

    method Attempt(turn: int, choice: Choice, continuationFrom: Option<string>)
        returns (r: Result<Segment>, ghost text: string)
      requires continuationFrom.Some? ==> choice.NoTools?
      modifies this`calls, this`windows, session, packer, messages
      ensures calls == old(calls) + 1
      ensures |windows| == |old(windows)| + 1 && windows[..|old(windows)|] == old(windows)
      ensures continuationFrom.Some? ==> Continuing(windows[|old(windows)|]) && messages.items == old(messages.items)
      ensures continuationFrom.None? ==>
        && messages.items == windows[|old(windows)|]
        && Prepared(old(messages.items), messages.items, usePacker, packer)
      ensures old(Paired()) ==> Paired()
      ensures Asked(old(session.events), session.events, text, 1, turn)
      ensures r.Ok? ==>
        && replies(old(calls)).Returned?
        && AttemptOutcome(replies(old(calls)), r.value, choice, continuationFrom, text)
      ensures r.Err? ==> replies(old(calls)).Raised? && replies(old(calls)).error == r.error
    {
      hide Asked, AttemptOutcome, Continuing, EndsWith, Prepared;
      ghost var reply := replies(calls);
      var called, sink := CallModel(turn, continuationFrom);
      if continuationFrom.Some? { PairContinues(windows[|windows| - 1], continuationFrom.value); }
      if called.Err? {
        text := Forwards(sink);
        return Err(called.error), text;
      }
      var seg;
      seg, text := Show(reply, called.value, sink, choice, continuationFrom, old(session.events), turn);
      return Ok(seg), text;
    }

    // Tool turns

    ghost function Work(): Batch
      reads this`running, this`notes
    {
      Batch(running, parser, Partial(notes))
    }

    ghost function Now(main: Main): Moment
      reads this`tasks, session
    {
      Moment(tasks, main, session.events)
    }

    /** No task of the latest tool turn can take a step, and the arguments of all its calls have parsed. */
    ghost predicate NoneLeft()
      reads this`tasks, this`running
    {
      && |tasks| == |running| && (forall i :: 0 <= i < |tasks| ==> IsOver(tasks[i]))
      && !Mixed(parser, running)
    }

    /** One segment, between two awaits, of the coroutine that invokes a call. */
    method Invoke(call: ToolCall, pc: Pc) returns (next: Pc)
      requires !IsOver(pc)
      modifies this`invocations, session
      ensures next == NextPc(parser, call, pc, old(session.Cancelled()), toolReplies(old(invocations)))
      ensures session.events == old(session.events) + StepEvents(call, pc, next)
      ensures invocations == old(invocations) + if pc.Announced? && !old(session.Cancelled()) then 1 else 0
      ensures old(session.Cancelled()) ==> session.Cancelled()
    {
      match pc {
        case Fresh =>
          var error := ParseError(parser, call.arguments);
          if error.Some? {
            return Pc.Raised(error.value);
          }
          session.Emit(ToolStarted(call.id, call.name));
          next := Announced;
        case Announced =>
          if session.Cancelled() {
            next := Done(false, "cancelled", "cancelled");
          } else {
            var reply := toolReplies(invocations);
            invocations := invocations + 1;
            if reply.NoSuchTool? {
              next := Done(false, "unknown tool: " + call.name, "unknown tool: " + call.name);
            } else {
              session.Await();
              next := Running(reply.outcome);
            }
          }
        case Running(outcome) =>
          if outcome.ToolError? {
            next := Done(false, outcome.error, outcome.error);
          } else if session.Cancelled() {
            next := Done(false, "cancelled", "cancelled");
          } else {
            next := Done(true, outcome.text, Take(outcome.text, 180));
          }
      }
      if next.Done? {
        session.Emit(ToolFinished(call.id, next.ok, next.summary));
      }
    }

    /** Some task goes on. */
    method StepTask(i: nat, ghost main: Main) returns (error: Option<string>, ghost act: Act)
      requires i < |tasks| == |running| && !IsOver(tasks[i])
      modifies this`tasks, this`invocations, session
      ensures |tasks| == |running| && Remaining(tasks) < old(Remaining(tasks))
      ensures error == if tasks[i].Raised? then Some(tasks[i].error) else None
      ensures act == OfTask(i, old(session.Cancelled()), toolReplies(old(invocations)))
      ensures tasks == old(tasks)[i := NextPc(parser, running[i], old(tasks[i]), act.cancelled, act.reply)]
      ensures invocations == old(invocations) + if old(tasks[i]).Announced? && !act.cancelled then 1 else 0
      ensures old(session.Cancelled()) ==> session.Cancelled()
      ensures
        var after := Advance(Work(), old(Now(main)), act);
        && Now(after.main) == after
        && after.main == if error.Some? && main.Waiting? then Failing(Handler(error.value, Partial(notes))) else main
    {
      hide NextPc, Stage, Partial, Handler, StepEvents;
      ghost var cancelled, reply, before := session.Cancelled(), toolReplies(invocations), tasks;
      var next := Invoke(running[i], tasks[i]);
      tasks := tasks[i := next];
      act := OfTask(i, cancelled, reply);
      NextPcAdvances(parser, running[i], before[i], cancelled, reply);
      RemainingLess(before, i, next);
      error := if next.Raised? then Some(next.error) else None;
    }

    // Where the results of tool calls come from

    /** The task has called its tool exactly when it is past that, and its result is what came back, unless the run was
        cancelled. */
    predicate SourcedTask(call: ToolCall, pc: Pc, src: Option<nat>, lo: nat, hi: nat, cancelled: bool) {
      && (src.Some? ==> lo <= src.value < hi)
      && match pc
         case Running(outcome) => src.Some? && toolReplies(src.value) == Called(outcome)
         case Done(ok, text, _) =>
           || (cancelled && !ok && text == "cancelled")
           || (src.Some? && IsResult(call, toolReplies(src.value), ok, text))
         case _ => src.None?
    }

    ghost predicate Sourced(toolCalls: seq<ToolCall>, pcs: seq<Pc>, src: seq<Option<nat>>, lo: nat, hi: nat,
        cancelled: bool)
    {
      && |toolCalls| == |pcs| == |src|
      && (forall i :: 0 <= i < |pcs| ==> SourcedTask(toolCalls[i], pcs[i], src[i], lo, hi, cancelled))
      && forall i, j :: 0 <= i < j < |src| && src[i].Some? ==> src[i] != src[j]
    }

    lemma NoneSourced(toolCalls: seq<ToolCall>, lo: nat, cancelled: bool) returns (src: seq<Option<nat>>)
      ensures Sourced(toolCalls, seq(|toolCalls|, _ => Fresh), src, lo, lo, cancelled)
    {
      src := seq(|toolCalls|, _ => None);
    }

    lemma SourcedStep(toolCalls: seq<ToolCall>, pcs: seq<Pc>, src: seq<Option<nat>>, i: nat, lo: nat, hi: nat,
        cancelled: bool, cancelled': bool) returns (src': seq<Option<nat>>)
      requires Sourced(toolCalls, pcs, src, lo, hi, cancelled) && lo <= hi && i < |pcs| && !IsOver(pcs[i])
      requires cancelled ==> cancelled'
      ensures
        var next := NextPc(parser, toolCalls[i], pcs[i], cancelled, toolReplies(hi));
        Sourced(toolCalls, pcs[i := next], src', lo, hi + if pcs[i].Announced? && !cancelled then 1 else 0, cancelled')
    {
      src' := if pcs[i].Announced? && !cancelled then src[i := Some(hi)] else src;
      assert SourcedTask(toolCalls[i], pcs[i], src[i], lo, hi, cancelled);
      forall j | 0 <= j < |pcs| && j != i ensures src[j] != Some(hi) {
        assert SourcedTask(toolCalls[j], pcs[j], src[j], lo, hi, cancelled);
      }
    }

    /** Every call has a result of its own: the answer to one invocation of its tool, which its end event reports, or
        else it was cancelled. */
    ghost predicate ToolsAnswered(toolCalls: seq<ToolCall>, texts: seq<string>, es: seq<Event>, src: seq<Option<nat>>,
        cancelled: bool)
    {
      && |toolCalls| == |texts| == |src|
      && (forall i, j :: 0 <= i < j < |src| && src[i].Some? ==> src[i] != src[j])
      && forall i :: 0 <= i < |src| ==>
           || (src[i].Some? && IsReported(toolCalls[i], toolReplies(src[i].value), texts[i], es))
           || (cancelled && texts[i] == "cancelled" && ToolFinished(toolCalls[i].id, false, "cancelled") in es)
    }

    lemma ResultsReported(b: Batch, start: seq<Event>, m: Moment, src: seq<Option<nat>>, lo: nat, hi: nat,
        cancelled: bool, texts: seq<string>)
      requires Kept(b, start, m) && AllDone(m.pcs) && Sourced(b.calls, m.pcs, src, lo, hi, cancelled)
      requires |texts| == |m.pcs| && forall i :: 0 <= i < |m.pcs| ==> texts[i] == m.pcs[i].text
      ensures ToolsAnswered(b.calls, texts, m.log[|start|..], src, cancelled)
    {
      forall i | 0 <= i < |src|
        ensures (src[i].Some? && IsReported(b.calls[i], toolReplies(src[i].value), texts[i], m.log[|start|..]))
             || (cancelled && texts[i] == "cancelled"
                 && ToolFinished(b.calls[i].id, false, "cancelled") in m.log[|start|..])
      {
        assert TaskOk(b, b.calls[i], m.pcs[i], m.log[|start|..]);
        assert SourcedTask(b.calls[i], m.pcs[i], src[i], lo, hi, cancelled);
      }
    }

    /** The calls of one assistant message run together: at every step any unfinished task may go on. The first
        exception of a task ends the waiting. */
    method Gather(toolCalls: seq<ToolCall>)
        returns (r: Result<seq<string>>, ghost acts: seq<Act>, ghost src: seq<Option<nat>>)
      modifies this`invocations, this`running, this`tasks, session
      ensures running == toolCalls && |tasks| == |running|
      ensures After(Work(), Start(Work(), old(session.events)), acts)
           == Now(if r.Ok? then Waiting else Failing(Handler(r.error, Partial(notes))))
      ensures old(session.events) <= session.events && Requested(old(session.events), session.events, 0)
      ensures old(session.Cancelled()) ==> session.Cancelled() && invocations == old(invocations)
      ensures r.Ok? ==>
        && |r.value| == |toolCalls| && AllDone(tasks) && !Mixed(parser, toolCalls)
        && Continues(old(session.events), session.events)
        && TextsReported(toolCalls, r.value, session.events[|old(session.events)|..])
        && ToolsAnswered(toolCalls, r.value, session.events[|old(session.events)|..], src, session.Cancelled())
    {
      hide After, Advance, Partial, Handler, Continues, Requested, Sourced, NextPc, Kept, Remaining, Mixed;
      hide ToolsAnswered;
      ghost var start := session.events;
      running, tasks := toolCalls, seq(|toolCalls|, _ => Fresh);
      var error: Option<string> := None;
      acts := [];
      NoActs(Work(), Start(Work(), start));
      ghost var lo := invocations;
      src := NoneSourced(toolCalls, lo, session.Cancelled());
      while error.None? && exists i :: 0 <= i < |tasks| && !IsOver(tasks[i])
        invariant running == toolCalls && |tasks| == |running|
        invariant After(Work(), Start(Work(), start), acts)
               == Now(if error.None? then Waiting else Failing(Handler(error.value, Partial(notes))))
        invariant old(session.Cancelled()) ==> session.Cancelled() && invocations == lo
        invariant lo <= invocations && Sourced(toolCalls, tasks, src, lo, invocations, session.Cancelled())
        decreases Remaining(tasks)
      {
        var i :| 0 <= i < |tasks| && !IsOver(tasks[i]);
        ghost var act;
        ghost var pcs, hi, cancelled := tasks, invocations, session.Cancelled();
        error, act := StepTask(i, Waiting);
        src := SourcedStep(toolCalls, pcs, src, i, lo, hi, cancelled, session.Cancelled());
        AfterOneMore(Work(), Start(Work(), start), acts, act);
        acts := acts + [act];
      }
      HistoryKept(Work(), start, acts);
      KeptQuiet(Work(), start, After(Work(), Start(Work(), start), acts));
      if error.Some? {
        return Err(error.value), acts, src;
      }
      WaitingAllDone(Work(), start, Now(Waiting));
      AllDoneParse(Work(), start, Now(Waiting));
      var pcs := tasks;
      r := Ok(seq(|pcs|, i requires 0 <= i < |pcs| => pcs[i].text));
      AllDoneCompletes(Work(), start, Now(Waiting), r.value);
      ResultsReported(Work(), start, Now(Waiting), src, lo, invocations, session.Cancelled(), r.value);
    }

    /** One tool turn: the assistant message and one result a call are appended, in call order. When a call raises,
        its message stays without results. */
    method RunTools(result: TurnResult)
        returns (r: Result<bool>, ghost texts: seq<string>, ghost acts: seq<Act>, ghost src: seq<Option<nat>>)
      requires result.toolCalls != []
      modifies this`invocations, this`running, this`tasks, session, messages
      ensures running == result.toolCalls && |tasks| == |running|
      ensures old(session.events) <= session.events && Requested(old(session.events), session.events, 0)
      ensures r.Ok? ==>
        && NoneLeft() && |texts| == |result.toolCalls|
        && TextsReported(result.toolCalls, texts, session.events[|old(session.events)|..])
        && messages.items == old(messages.items) + ToolTurn(result, texts)
        && (old(Paired()) ==> Paired())
        && (r.value <==> session.Cancelled())
        && (r.value ==> Ends(old(session.events), session.events) && !Succeeded(session.events)
                        && |session.events| >= 2 && session.events[|session.events| - 2].MessageCompleted?
                        && session.events[|session.events| - 1] == RunFinished("cancelled", Some("cancelled")))
        && (!r.value ==>
              && Continues(old(session.events), session.events)
              && ToolsAnswered(result.toolCalls, texts, session.events[|old(session.events)|..], src, false))
      ensures r.Err? ==>
        && After(Work(), Start(Work(), old(session.events)), acts) == Now(Failing(Handler(r.error, Partial(notes))))
        && !WellPaired(messages.items) && (old(Paired()) ==> WindowsPaired())
    {
      hide Continues, Ends, TextsReported, WellPaired, Partial, Handler, After, Requested, ToolsAnswered;
      ghost var start, before := session.events, messages.items;
      var head := Assistant(result.content, Recorded(result.toolCalls));
      messages.items := messages.items + [head];
      var rows;
      rows, acts, src := Gather(result.toolCalls);
      if rows.Err? {
        DanglingHead(before, head);
        return Err(rows.error), [], acts, src;
      }
      texts := rows.value;
      for i := 0 to |rows.value|
        modifies messages
        invariant messages.items == before + [head] + Results(result.toolCalls[..i], texts[..i])
      {
        messages.items := messages.items + [Tool(result.toolCalls[i].id, rows.value[i])];
        assert Results(result.toolCalls[..i + 1], texts[..i + 1])
            == Results(result.toolCalls[..i], texts[..i]) + [Tool(result.toolCalls[i].id, texts[i])];
      }
      assert result.toolCalls[..|texts|] == result.toolCalls && texts[..|texts|] == texts;
      assert messages.items == before + ToolTurn(result, texts);
      ToolTurnPaired(before, result, texts);
      r := Ok(session.Cancelled());
      if r.value {
        ghost var mid := session.events;
        FinishRun("cancelled", Partial(notes), Some("cancelled"));
        FinishEnds(start, mid, MessageCompleted(Partial(notes), false), RunFinished("cancelled", Some("cancelled")));
        ReportsStay(result.toolCalls, texts, start, mid, session.events);
        RequestedNone(mid, session.events);
        RequestedTrans(start, mid, session.events, 0, 0);
      }
    }

    /** While the run fails, and after it has ended, tasks left behind may go on. */
    method Drift(ghost main: Main) returns (ghost acts: seq<Act>)
      requires |tasks| == |running| && main.Failing?
      modifies this`tasks, this`invocations, session
      ensures |tasks| == |running|
      ensures After(Work(), old(Now(main)), acts) == Now(main)
      ensures old(NoneLeft()) ==> NoneLeft() && session.events == old(session.events)
    {
      hide Advance, Partial;
      acts := [];
      ghost var before := Now(main);
      var more: bool := *;
      while more && exists i :: 0 <= i < |tasks| && !IsOver(tasks[i])
        invariant |tasks| == |running|
        invariant After(Work(), before, acts) == Now(main)
        invariant old(NoneLeft()) ==> NoneLeft() && session.events == old(session.events)
        decreases Remaining(tasks)
      {
        var i :| 0 <= i < |tasks| && !IsOver(tasks[i]);
        ghost var act;
        var error;
        error, act := StepTask(i, main);
        AfterOneMore(Work(), before, acts, act);
        acts := acts + [act];
        more := *;
      }
    }

    method HandlerEmits(e: Event, ghost before: Moment, ghost acts: seq<Act>, ghost rest: seq<Event>)
        returns (ghost acts': seq<Act>)
      requires |tasks| == |running| && rest != [] && e == rest[0]
      requires After(Work(), before, acts) == Now(Failing(rest))
      modifies this`tasks, this`invocations, session
      ensures |tasks| == |running| && After(Work(), before, acts') == Now(Failing(rest[1..]))
      ensures old(NoneLeft()) ==> NoneLeft() && session.events == old(session.events) + [e]
    {
      hide After, Partial;
      ghost var more := Drift(Failing(rest));
      AfterAppend(Work(), before, acts, more);
      session.Emit(e);
      AfterOneMore(Work(), before, acts + more, OfRun);
      acts' := acts + more + [OfRun];
    }

    /** The exception handler around the whole run. */
    method Fail(error: string) returns (ghost acts: seq<Act>)
      requires |tasks| == |running|
      modifies this`tasks, this`invocations, session
      ensures |tasks| == |running|
      ensures After(Work(), old(Now(Failing(Handler(error, Partial(notes))))), acts) == Now(Failing([]))
      ensures old(NoneLeft()) ==> NoneLeft() && session.events == old(session.events) + Handler(error, Partial(notes))
    {
      hide Partial, After;
      ghost var h := Handler(error, Partial(notes));
      ghost var before := Now(Failing(h));
      acts := [];
      NoActs(Work(), before);
      acts := HandlerEmits(ErrorEvent(error), before, acts, h);
      acts := HandlerEmits(MessageCompleted(Partial(notes), false), before, acts, h[1..]);
      acts := HandlerEmits(RunFinished("failed", NonEmpty(Some(error))), before, acts, h[1..][1..]);
      assert h[1..][1..][1..] == [];
    }

    /** The final answer: cut to the report limit, streamed if it was not, and completed. */
    method HandleFinal(result: TurnResult, maxReportChars: int, streamed: bool) returns (ghost text: string)
      modifies session
      ensures FinalOutcome(old(session.events), session.events, result, maxReportChars, Partial(notes), text)
      ensures streamed ==> text == ""
      ensures !streamed && Succeeded(session.events) ==> text == Take(result.content, maxReportChars)
      ensures session.events[|session.events| - 1].status == "cancelled" ==> session.Cancelled()
      ensures old(session.Cancelled()) ==> session.events[|session.events| - 1].status == "cancelled"
    {
      hide Grew, NormalizeFinish, Blank;
      text := "";
      GrewNothing(session.events);
      var shown := Take(result.content, maxReportChars);
      var truncated := |result.content| > maxReportChars;
      if session.Cancelled() {
        EndWith(MessageCompleted(OrElse(shown, Partial(notes)), false), RunFinished("cancelled", Some("cancelled")));
        return;
      }
      if NormalizeFinish(result.finishReason, false, false) == OutputLimit {
        truncated := true;
      }
      if Blank(shown) {
        GrewEmit(session.events, ErrorEvent(EMPTY_FINAL));
        session.Emit(ErrorEvent(EMPTY_FINAL));
        EndWith(MessageCompleted(Partial(notes), false), RunFinished("failed", Some(EMPTY_FINAL)));
        return;
      }
      NotBlankNotEmpty(shown);
      if !streamed {
        var completed;
        completed, text := StreamChunks(shown);
        if !completed {
          EndWith(MessageCompleted(shown, false), RunFinished("cancelled", Some("cancelled")));
          return;
        }
      }
      EndWith(MessageCompleted(shown, truncated), RunFinished("succeeded", None));
    }

    method EndWith(completed: Event, finished: Event)
      modifies session
      ensures session.events == old(session.events) + [completed, finished]
      ensures Body(session.events) == old(session.events)
      ensures old(session.Cancelled()) ==> session.Cancelled()
    {
      session.Emit(completed);
      session.Emit(finished);
    }

    /** The answer is emitted in chunks of 24 characters, as long as the run is not cancelled. */
    method StreamChunks(shown: string) returns (completed: bool, ghost text: string)
      modifies session
      ensures Grew(old(session.events), session.events, text)
      ensures if completed then text == shown else session.Cancelled()
    {
      hide Grew;
      var chunks := Chunks(shown, 24);
      ChunksConcat(shown, 24);
      GrewNothing(session.events);
      text := "";
      for i := 0 to |chunks|
        invariant Grew(old(session.events), session.events, text) && text == Concat(chunks[..i])
      {
        if session.Cancelled() {
          return false, text;
        }
        GrewEmit(session.events, TextDelta(chunks[i]));
        GrewTrans(old(session.events), session.events, session.events + [TextDelta(chunks[i])], text, chunks[i]);
        session.Emit(TextDelta(chunks[i]));
        ConcatSnoc(chunks[..i], chunks[i]);
        assert chunks[..i + 1] == chunks[..i] + [chunks[i]];
        text := text + chunks[i];
      }
      assert chunks[..|chunks|] == chunks;
      completed := true;
    }

    /** The text of a tool turn that did not stream goes to the reasoning, in chunks of 40 characters. */
    method EmitReasoning(content: string)
      modifies session
      ensures Grew(old(session.events), session.events, "")
      ensures ReasoningOf(session.events) == ReasoningOf(old(session.events)) + content
    {
      hide Grew, ReasoningOf;
      var chunks := Chunks(content, 40);
      ChunksConcat(content, 40);
      GrewNothing(session.events);
      for i := 0 to |chunks|
        invariant Grew(old(session.events), session.events, "")
        invariant ReasoningOf(session.events) == ReasoningOf(old(session.events)) + Concat(chunks[..i])
      {
        GrewEmit(session.events, ReasoningDelta(chunks[i]));
        GrewTrans(old(session.events), session.events, session.events + [ReasoningDelta(chunks[i])], "", "");
        ConcatSnoc(chunks[..i], chunks[i]);
        assert chunks[..i + 1] == chunks[..i] + [chunks[i]];
        ReasoningSnoc(session.events, chunks[i]);
        session.Emit(ReasoningDelta(chunks[i]));
      }
      assert chunks[..|chunks|] == chunks;
    }

    // Whole turns and runs

    /** What is said of the last turn of a run, when the calls it kept stream their content wholly or not at all:
        the answer is on the log after what the calls it threw away said. */
    ghost predicate Answered(last: Turn, limit: int)
      reads this, session
    {
      Whole(last.firstCall + last.discardedCalls, calls) ==> AnswerStreamed(last.start, session.events,
          calls - last.firstCall, last.number, limit, SaidBy(last.firstCall, last.firstCall + last.discardedCalls))
    }

    /** The turn is the last one since a log and a number of calls: it threw away only its first calls, cut off in a
        tool call, and after them and the one it kept it only continued. Its start is the log at which its first call
        was announced: the calls announced since are its own, those announced before are of earlier turns. */
    ghost predicate IsLast(last: Turn, log: seq<Event>, from: nat)
      reads this`calls, this`windows, session
    {
      LastOf(last, log, from) && StartsTurn(last.start, session.events, calls - last.firstCall, last.number)
    }

    ghost predicate LastOf(last: Turn, log: seq<Event>, from: nat)
      reads this`calls, this`windows
    {
      && from <= last.firstCall && KeptCall(last) <= calls
      && AllTruncated(last.firstCall, KeptCall(last))
      && Rounds(last.shown, windows, calls - last.firstCall, last.discardedCalls)
      && Requested(log, last.start, last.firstCall - from) && OfTurns(log, last.start, 1, last.number - 1)
    }

    lemma NoTurn(log: seq<Event>, from: nat, number: int, choice: Choice, given: seq<Message>)
      requires from <= calls && Requested(log, session.events, calls - from)
      requires OfTurns(log, session.events, 1, number - 1)
      ensures IsLast(Turn(number, choice, given, session.events, windows, calls, 0), log, from)
    {
      assert session.events[|session.events|..] == [];
    }

    lemma LastSince(last: Turn, log: seq<Event>, from: nat, log': seq<Event>, from': nat)
      requires IsLast(last, log, from) && from' <= from
      requires Requested(log', log, from - from') && OfTurns(log', log, 1, last.number - 1)
      ensures IsLast(last, log', from')
    {
      RequestedTrans(log', log, last.start, from - from', last.firstCall - from);
      OfTurnsTrans(log', log, last.start, 1, last.number - 1, last.number - 1);
    }

    lemma NotAnswered(last: Turn, limit: int)
      requires !Succeeded(session.events)
      ensures Answered(last, limit)
    {
      NothingToStream(last.start, session.events, calls - last.firstCall, last.number, limit,
          SaidBy(last.firstCall, last.firstCall + last.discardedCalls));
    }

    /** The latest tool turn, of the reply to the last model call, raised, and this is where it and the run are now. */
    ghost predicate Crashed(crash: Crash, main: Main, log: seq<Event>, from: nat)
      reads this, session
    {
      && Continues(log, crash.start)
      && from < calls && replies(calls - 1).Returned? && running == replies(calls - 1).result.toolCalls
      && |tasks| == |running| && main.Failing?
      && After(Work(), Start(Work(), crash.start), crash.acts) == Now(main)
    }

    /** No reply since this call mixes tool calls whose arguments parse with tool calls whose arguments do not. */
    ghost predicate Unmixed(from: nat)
      reads this
    {
      forall i: nat :: from <= i < calls && replies(i).Returned? ==> !Mixed(parser, replies(i).result.toolCalls)
    }

    /** The run is over: it has ended properly and no task is left, or a tool turn raised and the handler is through. */
    ghost predicate Outcome(crash: Option<Crash>, log: seq<Event>, from: nat)
      reads this, session
    {
      && |tasks| == |running|
      && (crash.None? ==> NoneLeft() && Ends(log, session.events))
      && (crash.Some? ==> Crashed(crash.value, Failing([]), log, from))
    }

    lemma EndedIsOutcome(log: seq<Event>, from: nat)
      requires NoneLeft() && Ends(log, session.events)
      ensures Outcome(None, log, from)
    {}

    lemma UnmixedLatest(from: nat)
      requires Unmixed(from) && from < calls && replies(calls - 1).Returned?
      requires running == replies(calls - 1).result.toolCalls
      ensures !Mixed(parser, running)
    {
      hide Mixed;
    }

    /** However its tool turns go, a run that is over has ended once; it ends properly when none was mixed. */
    lemma OutcomeEnds(crash: Option<Crash>, log: seq<Event>, from: nat)
      requires Outcome(crash, log, from)
      ensures EndsOnce(log, session.events)
      ensures !Mixed(parser, running) || Unmixed(from) ==> Ends(log, session.events)
      ensures crash.Some? ==> !Succeeded(session.events)
    {
      hide Ends, EndsOnce, Continues, After, Proper, Start, Kept, Mixed, Unmixed;
      match crash {
        case None => EndsIsOnce(log, session.events);
        case Some(c) =>
          HistoryKept(Work(), c.start, c.acts);
          FailedEndsOnce(Work(), c.start, Now(Failing([])));
          ContinuesThenEndsOnce(log, c.start, session.events);
          FailedNotSucceeded(c.start, session.events, Work());
          if Unmixed(from) { UnmixedLatest(from); }
          if !Mixed(parser, running) {
            UnmixedIsProper(Work(), c.start, c.acts);
            ProperEnds(c.start, Now(Failing([])));
            ContinuesThenEnds(log, c.start, session.events);
          }
      }
    }

    /** A run that is over has ended properly, and had under every interleaving of its latest tool turn and whatever the
        tools answered, exactly when that turn did not mix calls whose arguments parse with calls whose arguments do
        not. */
    lemma EndsExactly(crash: Option<Crash>, log: seq<Event>, from: nat)
      requires Outcome(crash, log, from)
      ensures
        (match crash
         case None => Ends(log, session.events)
         case Some(c) => forall acts ::
           After(Work(), Start(Work(), c.start), acts).main == Failing([]) ==>
             Ends(log, After(Work(), Start(Work(), c.start), acts).log))
        <==> !Mixed(parser, running)
    {
      hide Ends, Continues, After, Proper, Start, Mixed;
      if crash.Some? {
        var c := crash.value;
        if Mixed(parser, running) {
          var acts := MixedFails(Work(), log, c.start);
        } else {
          forall acts | After(Work(), Start(Work(), c.start), acts).main == Failing([])
            ensures Ends(log, After(Work(), Start(Work(), c.start), acts).log)
          {
            UnmixedIsProper(Work(), c.start, acts);
            ProperEnds(c.start, After(Work(), Start(Work(), c.start), acts));
            ContinuesThenEnds(log, c.start, After(Work(), Start(Work(), c.start), acts).log);
          }
        }
      }
    }

    /** A logical assistant that makes no tool call, and the end of the run that follows from it. */
    method FinalAnswer(out: Logical, maxReportChars: int, ghost start: seq<Event>, ghost n: nat,
        ghost discarded: string, ghost text: string, ghost whole: bool, ghost turn: int)
      requires out.Answer? && Asked(start, session.events, text, n, turn) && n > 0
      requires whole ==> text == discarded + out.result.content && (out.result.content != "" ==> out.streamed)
      modifies session
      ensures Ends(start, session.events) && StartsTurn(start, session.events, n, turn)
      ensures whole ==> AnswerStreamed(start, session.events, n, turn, maxReportChars, discarded)
      ensures |session.events| >= 2
      ensures FinalEvents(session.events[|session.events| - 2], session.events[|session.events| - 1], out.result,
          maxReportChars, Partial(notes))
      ensures session.events[|session.events| - 1].status == "cancelled" ==> session.Cancelled()
    {
      hide Grew, Asked, Requested, Blank;
      ghost var log := session.events;
      ghost var more := HandleFinal(out.result, maxReportChars, out.streamed);
      AskedThenGrew(start, log, Body(session.events), text, more, n, turn);
      AskedEnds(start, session.events, text + more, n, turn);
      assert text + "" == text;
      if whole && Succeeded(session.events) {
        NotBlankNotEmpty(Take(out.result.content, maxReportChars));
        AnswerOf(start, session.events, n, turn, discarded, out.result.content, maxReportChars);
      }
    }

    // How a run goes and ends

    /** The turn called tools: they ran, their results were appended to the conversation, and each is on the log. */
    ghost predicate RanTools(d: Ran, items: seq<Message>, ws: seq<seq<Message>>) {
      var k, w := KeptCall(d.turn), |d.turn.shown| + d.turn.discardedCalls;
      && d.turn.choice == Auto && AllTruncated(d.turn.firstCall, k) && CallsTools(replies(k), Auto)
      && |d.texts| == |replies(k).result.toolCalls|
      && d.turn.start <= d.stop
      && TextsReported(replies(k).result.toolCalls, d.texts, d.stop[|d.turn.start|..])
      && ToolsAnswered(replies(k).result.toolCalls, d.texts, d.stop[|d.turn.start|..], d.sources, false)
      && |ws| == w + 1 && d.turn.shown <= ws
      && Talked(d.turn.given, ws[w], ws, |d.turn.shown|, d.turn.discardedCalls + 1)
      && items == ws[w] + ToolTurn(replies(k).result, d.texts)
    }

    /** From a conversation, a log, a number of calls and the windows shown to others, by turns that all ran their
        tools: each begins where the one before stopped. */
    ghost predicate Went(done: seq<Ran>, given: seq<Message>, start: seq<Event>, from: nat, ws0: seq<seq<Message>>,
        items: seq<Message>, log: seq<Event>, upTo: nat, ws: seq<seq<Message>>)
    {
      if done == [] then items == given && log == start && upTo == from && ws == ws0
      else
        var front, d := done[..|done| - 1], done[|done| - 1];
        && Went(front, given, start, from, ws0, d.turn.given, d.turn.start, d.turn.firstCall, d.turn.shown)
        && d.turn.number == |done| && RanTools(d, items, ws) && log == d.stop && upTo == KeptCall(d.turn) + 1
    }

    /** The texts noted of these turns: what came with their tool calls. */
    function NotesOf(done: seq<Ran>): seq<string> {
      if done == [] then []
      else
        var reply := replies(KeptCall(done[|done| - 1].turn));
        NotesOf(done[..|done| - 1]) + if reply.Returned? then NoteOf(reply.result.content) else []
    }

    lemma WentMore(done: seq<Ran>, d: Ran, given: seq<Message>, start: seq<Event>, from: nat, ws0: seq<seq<Message>>,
        items: seq<Message>, ws: seq<seq<Message>>)
      requires Went(done, given, start, from, ws0, d.turn.given, d.turn.start, d.turn.firstCall, d.turn.shown)
      requires d.turn.number == |done| + 1 && RanTools(d, items, ws)
      ensures Went(done + [d], given, start, from, ws0, items, d.stop, KeptCall(d.turn) + 1, ws)
      ensures NotesOf(done + [d]) == NotesOf(done) + NoteOf(replies(KeptCall(d.turn)).result.content)
    {
      hide TextsReported, ToolsAnswered, Talked, AllTruncated, NormalizeFinish;
      assert (done + [d])[..|done|] == done;
    }

    /** What the last call of a turn was asked: a continuation is asked without tools. */
    function AskedLast(last: Turn): Choice
      reads this`calls
    {
      if KeptCall(last) + 1 < calls then NoTools else last.choice
    }

    /** The turn kept one call and then those that were cut off in their text, on windows made one from the other. */
    ghost predicate Spoke(last: Turn)
      reads this`calls, this`windows
    {
      last.firstCall < calls ==>
        var w := |last.shown| + last.discardedCalls;
        && KeptCall(last) < calls && w < |windows|
        && AllLimited(KeptCall(last), calls - 1, last.choice)
        && Talked(last.given, windows[w], windows, |last.shown|, last.discardedCalls + 1)
    }

    lemma SpokeOf(last: Turn, items: seq<Message>)
      requires KeptCall(last) < calls && AllLimited(KeptCall(last), calls - 1, last.choice)
      requires Talked(last.given, items, windows, |last.shown|, last.discardedCalls + 1)
      ensures Spoke(last)
    {
      hide Talked, AllLimited;
      TalkedItems(last.given, items, windows, |last.shown|, last.discardedCalls);
    }

    /** A call of the tool turn raised. */
    ghost predicate ToolsThrew(last: Turn)
      reads this`calls
    {
      && last.firstCall <= KeptCall(last) == calls - 1 && last.choice == Auto
      && CallsTools(replies(calls - 1), Auto)
    }

    /** Whether and why the turn threw: because the model raised, or a call of its tool turn. */
    ghost predicate ThrewRight(last: Turn, crash: Option<Crash>, error: string)
      reads this`calls
    {
      && last.firstCall <= KeptCall(last) < calls
      && (crash.None? ==> replies(calls - 1) == Reply.Raised(replies(calls - 1).pieces, error))
      && (crash.Some? ==> ToolsThrew(last))
    }

    /** How a run that nobody cancelled ends is decided by its last reply alone: its kind, its tool calls, and the text
        the kept calls of its turn make together. */
    ghost predicate EndedAs(last: Turn, crash: Option<Crash>, limit: int, completed: Event, finished: Event)
      reads this`calls, this`notes, this`running
    {
      && last.firstCall <= KeptCall(last) < calls
      && var noted := MessageCompleted(Partial(notes), false);
      match replies(calls - 1)
      case Raised(_, error) =>
        crash.None? && completed == noted && finished == RunFinished("failed", NonEmpty(Some(error)))
      case Returned(_, result) =>
        var asks := last.choice == Auto && KeptCall(last) + 1 == calls && result.toolCalls != [];
        var shown := Joined(KeptCall(last), calls);
        var partial := MessageCompleted(OrElse(shown, Partial(notes)), false);
        match NormalizeFinish(result.finishReason, asks, false)
        case Cancelled => completed == partial && finished == RunFinished("cancelled", Some("cancelled"))
        case OutputLimit =>
          if asks then
            last.discardedCalls == 2 && completed == partial
            && finished == RunFinished("failed", Some("truncated_tool_call"))
          else AnsweredAs(shown, true, limit, completed, finished)
        case ToolCalls =>
          if asks then crash.Some? && completed == noted && FailedByCall(finished)
          else AnsweredAs(shown, false, limit, completed, finished)
        case Completed => AnsweredAs(shown, false, limit, completed, finished)
        case kind => completed == partial && finished == RunFinished("failed", NonEmpty(Some(Told(result, kind))))
    }

    /** A text that is not blank is the answer, cut to the limit; a blank one is a failure. */
    ghost predicate AnsweredAs(text: string, cut: bool, limit: int, completed: Event, finished: Event)
      reads this`notes
    {
      if Blank(Take(text, limit)) then
        completed == MessageCompleted(Partial(notes), false) && finished == RunFinished("failed", Some(EMPTY_FINAL))
      else
        completed == MessageCompleted(Take(text, limit), |text| > limit || cut)
          && finished == RunFinished("succeeded", None)
    }

    /** The run failed with the exception of one of its latest tool calls. */
    ghost predicate FailedByCall(finished: Event)
      reads this`running
    {
      exists j :: 0 <= j < |running| && ParseError(parser, running[j].arguments).Some?
        && finished == RunFinished("failed", NonEmpty(ParseError(parser, running[j].arguments)))
    }

    /** So these are the two events that end the run, unless it was cancelled. */
    ghost predicate EndsRight(last: Turn, crash: Option<Crash>, limit: int, ends: seq<Event>)
      reads this`calls, this`notes, this`running, session
    {
      && IsEnd(ends)
      && (|| (session.Cancelled() && ends[1] == RunFinished("cancelled", Some("cancelled")))
          || EndedAs(last, crash, limit, ends[0], ends[1]))
    }

    /** For example: a run that was not cancelled succeeds exactly when its last reply gave no tool calls to run, for a
        reason that is none or an ordinary one or the output limit, and the text kept is not blank; then that text, cut
        to the limit, is its message. */
    lemma SucceedsExactly(last: Turn, crash: Option<Crash>, limit: int, ends: seq<Event>)
      requires EndsRight(last, crash, limit, ends) && !session.Cancelled()
      ensures calls > 0
      ensures
        var reply, text := replies(calls - 1), Joined(KeptCall(last), calls);
        var good :=
          && reply.Returned? && (last.choice == NoTools || KeptCall(last) + 1 < calls || reply.result.toolCalls == [])
          && NormalizeFinish(reply.result.finishReason, false, false) in
               {FinishKind.Completed, FinishKind.ToolCalls, FinishKind.OutputLimit}
          && !Blank(Take(text, limit));
        && (ends[1].status == "succeeded" <==> good)
        && (good ==>
              && ends[0].content == Take(text, limit)
              && ends[0].truncated == (|text| > limit
                   || NormalizeFinish(reply.result.finishReason, false, false) == FinishKind.OutputLimit))
    {
      hide Joined, Partial, Blank, Take, OrElse;
    }

    lemma CancelledEnds(last: Turn, crash: Option<Crash>, limit: int, completed: Event)
      requires session.Cancelled() && completed.MessageCompleted?
      ensures EndsRight(last, crash, limit, [completed, RunFinished("cancelled", Some("cancelled"))])
    {}

    lemma CancelledEndsNow(last: Turn, limit: int)
      requires session.Cancelled() && |session.events| >= 2 && session.events[|session.events| - 2].MessageCompleted?
      requires session.events[|session.events| - 1] == RunFinished("cancelled", Some("cancelled"))
      ensures EndsRight(last, None, limit, LastTwo())
    {
      CancelledEnds(last, None, limit, session.events[|session.events| - 2]);
    }

    /** The last turn as a logical assistant leaves it. */
    ghost predicate LeftBy(last: Turn, out: Logical, continuations: nat, maxContinuations: int, cancelled: bool)
      reads this`calls
    {
      && last.discardedCalls <= 2 && KeptCall(last) + 1 + continuations == calls
      && Decided(out, replies(calls - 1), if continuations > 0 then NoTools else last.choice,
          Joined(KeptCall(last), calls), last.discardedCalls, continuations, maxContinuations, cancelled)
    }

    lemma AnsweredFreely(last: Turn, out: Logical, continuations: nat, maxContinuations: int, cancelled: bool)
      requires out.Answer? && LeftBy(last, out, continuations, maxContinuations, cancelled)
      ensures !cancelled && LeftBy(last, out, continuations, maxContinuations, false)
    {}

    lemma EarlyEndsRight(last: Turn, out: Logical, continuations: nat, maxContinuations: int, limit: int,
        start: seq<Event>, log: seq<Event>, text: string, n: int)
      requires out.Ended? && LeftBy(last, out, continuations, maxContinuations, session.Cancelled())
      requires EndedEarly(start, log, text, n, last.number, OrElse(out.shown, Partial(notes)), out.early)
      ensures EndsRight(last, None, limit, [log[|log| - 2], log[|log| - 1]])
    {
      hide Asked, Joined, NormalizeFinish, Partial, OrElse;
    }

    lemma AnswerEndsRight(last: Turn, out: Logical, continuations: nat, maxContinuations: int, limit: int,
        completed: Event, finished: Event)
      requires out.Answer? && out.result.toolCalls == [] && LeftBy(last, out, continuations, maxContinuations, false)
      requires FinalEvents(completed, finished, out.result, limit, Partial(notes))
      requires finished.status == "cancelled" ==> session.Cancelled()
      ensures EndsRight(last, None, limit, [completed, finished])
    {
      hide Joined, Partial, Blank, Take;
    }

    /** One turn: a logical assistant, then its tools or the final answer. */
    method StepBody(turn: int, maxContinuations: int, maxReportChars: int)
        returns (r: Step, ghost last: Turn, ghost crash: Option<Crash>, ghost d: Ran)
      requires NoneLeft()
      modifies this, session, packer, messages
      ensures calls <= old(calls) + Max0(maxContinuations) + 1 + MAX_TRUNCATED_TOOL_CALL_REGENERATIONS
      ensures Counted(old(windows), windows, calls - old(calls))
      ensures old(Paired()) ==> WindowsPaired() && (crash.None? ==> Paired())
      ensures r.Over? ==> Ends(old(session.events), session.events)
      ensures !r.Over? && crash.None? ==> Continues(old(session.events), session.events)
      ensures crash.None? ==> NoneLeft()
      ensures crash.Some? ==>
        && r.Threw? && !WellPaired(messages.items)
        && Crashed(crash.value, Failing(Handler(r.error, Partial(notes))), old(session.events), old(calls))
      ensures IsLast(last, old(session.events), old(calls)) && Spoke(last) && old(calls) < calls
      ensures last == Turn(turn, Auto, old(messages.items), old(session.events), old(windows), old(calls),
          last.discardedCalls)
      ensures r.Over? ==> Answered(last, maxReportChars) && EndsRight(last, None, maxReportChars, LastTwo())
      ensures r.Threw? ==> ThrewRight(last, crash, r.error)
      ensures r.GoOn? ==>
        && d.turn == last && d.stop == session.events && calls == KeptCall(last) + 1
        && RanTools(d, messages.items, windows)
      ensures r.GoOn? || crash.Some? ==>
        replies(calls - 1).Returned? && notes == old(notes) + NoteOf(replies(calls - 1).result.content)
      ensures (r.Threw? && crash.None?) || (r.Over? && !session.Cancelled()) ==> notes == old(notes)
    {
      hide *;
      ghost var start, from, shown, given := session.events, calls, windows, messages.items;
      var out;
      ghost var regens, continuations, text;
      out, regens, continuations, text := LogicalAssistant(turn, Auto, maxContinuations);
      last, crash := Turn(turn, Auto, given, start, shown, from, regens), None;
      d := Ran(last, [], [], []);
      PairedWindows();
      Assisted(last, out, continuations, maxContinuations, messages.items, session.Cancelled());
      match out {
        case RaisedOut(error) =>
          LastIs(last, text);
          DecidedThrew(last, error, continuations, maxContinuations, session.Cancelled());
          return Threw(error), last, crash, d;
        case Ended(shown, _, early) =>
          EndedIs(last, out, continuations, maxContinuations, maxReportChars, text);
          return Over, last, crash, d;
        case Answer(result, streamed) =>
          AnsweredFreely(last, out, continuations, maxContinuations, session.Cancelled());
          if result.toolCalls == [] {
            FinishAnswer(out, maxReportChars, last, continuations, maxContinuations, text);
            return Over, last, crash, d;
          }
          LastIs(last, text);
          DecidedTools(last, out, continuations, maxContinuations, messages.items);
          r, crash, d := ToolStep(result, streamed, last, maxReportChars);
          LastStays(last);
          if r.Over? {
            CancelledInTools(last, maxReportChars);
            NotAnswered(last, maxReportChars);
          }
          if crash.Some? { CrashedParts(last, crash.value, r.error); }
          return r, last, crash, d;
      }
    }

    /** What a logical assistant says about the turn it was for. */
    lemma Assisted(last: Turn, out: Logical, continuations: nat, maxContinuations: int, items: seq<Message>,
        cancelled: bool)
      requires calls == last.firstCall + last.discardedCalls + 1 + continuations
      requires last.discardedCalls <= MAX_TRUNCATED_TOOL_CALL_REGENERATIONS
      requires Rounds(last.shown, windows, calls - last.firstCall, last.discardedCalls)
      requires AllTruncated(last.firstCall, last.firstCall + last.discardedCalls)
      requires AllLimited(last.firstCall + last.discardedCalls, calls - 1, last.choice)
      requires Talked(last.given, items, windows, |last.shown|, last.discardedCalls + 1)
      requires Decided(out, replies(calls - 1), if continuations > 0 then NoTools else last.choice,
          Joined(last.firstCall + last.discardedCalls, calls), last.discardedCalls, continuations,
          maxContinuations, cancelled)
      ensures LeftBy(last, out, continuations, maxContinuations, cancelled) && Spoke(last) && last.firstCall < calls
      ensures LastOf(last, last.start, last.firstCall) && Counted(last.shown, windows, calls - last.firstCall)
      ensures AllTruncated(last.firstCall, KeptCall(last))
    {
      hide AllTruncated, AllLimited, Decided, Talked, Joined, Requested;
      RoundsCount(last.shown, windows, calls - last.firstCall, last.discardedCalls);
      SpokeOf(last, items);
      NoRequest(last.start);
      hide Rounds, Counted;
    }

    lemma LastIs(last: Turn, text: string)
      requires Asked(last.start, session.events, text, calls - last.firstCall, last.number)
      requires LastOf(last, last.start, last.firstCall)
      ensures Continues(last.start, session.events) && IsLast(last, last.start, last.firstCall)
      ensures StartsTurn(last.start, session.events, calls - last.firstCall, last.number)
    {
      hide *;
      AskedGoesOn(last.start, session.events, text, calls - last.firstCall, last.number);
      LastStays(last);
    }

    lemma LastStays(last: Turn)
      requires LastOf(last, last.start, last.firstCall)
      requires StartsTurn(last.start, session.events, calls - last.firstCall, last.number)
      ensures IsLast(last, last.start, last.firstCall)
    {}

    lemma EndedIs(last: Turn, out: Logical, continuations: nat, maxContinuations: int, limit: int, text: string)
      requires out.Ended? && LeftBy(last, out, continuations, maxContinuations, session.Cancelled())
      requires EndedEarly(last.start, session.events, text, calls - last.firstCall, last.number,
          OrElse(out.shown, Partial(notes)), out.early)
      requires LastOf(last, last.start, last.firstCall)
      ensures Ends(last.start, session.events) && IsLast(last, last.start, last.firstCall) && Answered(last, limit)
      ensures EndsRight(last, None, limit, LastTwo())
    {
      hide Ends, EndsRight, LeftBy, EndedEarly, Answered, OrElse, Partial, LastOf, StartsTurn;
      EarlyEnds(last.start, session.events, text, calls - last.firstCall, last.number,
          OrElse(out.shown, Partial(notes)), out.early);
      EarlyEndsRight(last, out, continuations, maxContinuations, limit, last.start, session.events, text,
          calls - last.firstCall);
      NotAnswered(last, limit);
    }

    lemma CrashedParts(last: Turn, crash: Crash, error: string)
      requires CrashedIn(last, crash, error)
      ensures ThrewRight(last, Some(crash), error)
      ensures Crashed(crash, Failing(Handler(error, Partial(notes))), last.start, last.firstCall)
    {}

    /** A logical assistant without tool calls is the answer. */
    method FinishAnswer(out: Logical, maxReportChars: int, ghost last: Turn, ghost continuations: nat,
        ghost maxContinuations: int, ghost text: string)
      requires out.Answer? && out.result.toolCalls == [] && last.firstCall < calls
      requires LeftBy(last, out, continuations, maxContinuations, false) && LastOf(last, last.start, last.firstCall)
      requires Asked(last.start, session.events, text, calls - last.firstCall, last.number)
      requires Whole(KeptCall(last), calls) ==> LogicalText(out, SaidBy(last.firstCall, KeptCall(last)), text)
      modifies session
      ensures Ends(last.start, session.events) && IsLast(last, last.start, last.firstCall)
      ensures Answered(last, maxReportChars) && EndsRight(last, None, maxReportChars, LastTwo())
    {
      hide Asked, Ends, AnswerStreamed, Whole, LogicalText, EndsRight, FinalEvents, LeftBy, LastOf, StartsTurn, Partial;
      ghost var discarded, n := SaidBy(last.firstCall, KeptCall(last)), calls - last.firstCall;
      ghost var whole := Whole(KeptCall(last), calls);
      if whole { TextOfAnswer(out, discarded, text); }
      FinalAnswer(out, maxReportChars, last.start, n, discarded, text, whole, last.number);
      AnswerEndsRight(last, out, continuations, maxContinuations, maxReportChars,
          session.events[|session.events| - 2], session.events[|session.events| - 1]);
    }

    ghost function LastTwo(): seq<Event>
      reads session
      requires |session.events| >= 2
    {
      [session.events[|session.events| - 2], session.events[|session.events| - 1]]
    }

    lemma DecidedThrew(last: Turn, error: string, continuations: nat, maxContinuations: int, cancelled: bool)
      requires LeftBy(last, RaisedOut(error), continuations, maxContinuations, cancelled)
      ensures ThrewRight(last, None, error)
    {
      hide Joined;
    }

    /** The last call of the turn asks for tools, and this is the conversation it was made on. */
    ghost predicate AtTools(last: Turn, items: seq<Message>)
      reads this`calls, this`windows
    {
      && last.firstCall <= KeptCall(last) == calls - 1 && last.choice == Auto && CallsTools(replies(calls - 1), Auto)
      && last.shown <= windows && |windows| == |last.shown| + last.discardedCalls + 1
      && AllTruncated(last.firstCall, KeptCall(last))
      && Talked(last.given, items, windows, |last.shown|, last.discardedCalls + 1)
    }

    lemma DecidedTools(last: Turn, out: Logical, continuations: nat, maxContinuations: int, items: seq<Message>)
      requires out.Answer? && out.result.toolCalls != [] && LeftBy(last, out, continuations, maxContinuations, false)
      requires Counted(last.shown, windows, calls - last.firstCall) && AllTruncated(last.firstCall, KeptCall(last))
      requires Talked(last.given, items, windows, |last.shown|, last.discardedCalls + 1)
      ensures AtTools(last, items) && KeptCall(last) == calls - 1 && replies(calls - 1).Returned?
      ensures out.result == replies(calls - 1).result
    {
      hide AllTruncated, Talked;
      var reply := replies(calls - 1);
      assert continuations == 0;
      assert Joined(KeptCall(last), calls) == "" + reply.result.content == reply.result.content by {
        assert Joined(KeptCall(last), calls - 1) == "";
      }
      hide Joined;
    }

    /** The tool calls of a turn: the text that came with them is noted, then the tools run. */
    method ToolStep(result: TurnResult, streamed: bool, ghost last: Turn, ghost limit: int)
        returns (r: Step, ghost crash: Option<Crash>, ghost d: Ran)
      requires NoneLeft() && AtTools(last, messages.items) && result == replies(calls - 1).result
      requires Continues(last.start, session.events)
      requires StartsTurn(last.start, session.events, calls - last.firstCall, last.number)
      modifies this`notes, this`invocations, this`running, this`tasks, session, messages
      ensures old(Paired()) ==> WindowsPaired() && (crash.None? ==> Paired())
      ensures r.Over? ==> session.Cancelled() && EndedInTools(last)
      ensures r.GoOn? ==> Continues(last.start, session.events)
      ensures crash.None? ==> NoneLeft() && !r.Threw?
      ensures crash.Some? ==> r.Threw? && !WellPaired(messages.items) && CrashedIn(last, crash.value, r.error)
      ensures StartsTurn(last.start, session.events, calls - last.firstCall, last.number)
      ensures r.GoOn? ==> d.turn == last && d.stop == session.events && RanTools(d, messages.items, windows)
      ensures notes == old(notes) + NoteOf(result.content)
    {
      hide *;
      AskedForTools(last, messages.items);
      Note(result.content, streamed, last.start, calls - last.firstCall, last.number);
      r, crash, d := UseTools(result, last);
    }

    /** The run was cancelled while its tools ran. */
    ghost predicate EndedInTools(last: Turn)
      reads session
    {
      && Ends(last.start, session.events) && !Succeeded(session.events)
      && session.events[|session.events| - 1] == RunFinished("cancelled", Some("cancelled"))
    }

    ghost predicate CrashedIn(last: Turn, crash: Crash, error: string)
      reads this, session
    {
      && ThrewRight(last, Some(crash), error)
      && Crashed(crash, Failing(Handler(error, Partial(notes))), last.start, last.firstCall)
    }

    lemma CancelledInTools(last: Turn, limit: int)
      requires EndedInTools(last) && session.Cancelled()
      ensures Ends(last.start, session.events) && !Succeeded(session.events)
      ensures EndsRight(last, None, limit, LastTwo())
    {
      CancelledEndsNow(last, limit);
      hide EndsRight, Continues;
    }

    method UseTools(result: TurnResult, ghost last: Turn) returns (r: Step, ghost crash: Option<Crash>, ghost d: Ran)
      requires AtTools(last, messages.items) && result == replies(calls - 1).result && result.toolCalls != []
      requires Continues(last.start, session.events)
      requires StartsTurn(last.start, session.events, calls - last.firstCall, last.number)
      modifies this`invocations, this`running, this`tasks, session, messages
      ensures old(Paired()) ==> WindowsPaired() && (crash.None? ==> Paired())
      ensures r.Over? ==> session.Cancelled() && EndedInTools(last)
      ensures r.GoOn? ==> Continues(last.start, session.events)
      ensures crash.None? ==> NoneLeft() && !r.Threw?
      ensures crash.Some? ==> r.Threw? && !WellPaired(messages.items) && CrashedIn(last, crash.value, r.error)
      ensures StartsTurn(last.start, session.events, calls - last.firstCall, last.number)
      ensures r.GoOn? ==> d.turn == last && d.stop == session.events && RanTools(d, messages.items, windows)
    {
      hide *;
      ghost var start, n, given, before := last.start, calls - last.firstCall, messages.items, session.events;
      ghost var texts, acts, sources;
      var cancelled;
      cancelled, texts, acts, sources := RunTools(result);
      TurnStays(start, before, session.events, n, last.number);
      crash, d := None, Ran(last, texts, sources, session.events);
      if cancelled.Err? {
        crash := Some(Crash(before, acts));
        CrashedNow(crash.value, cancelled.error, last, given);
        return Threw(cancelled.error), crash, d;
      }
      PairedWindows();
      if cancelled.value {
        EndedAfter(last, before);
        return Over, crash, d;
      }
      ContinuesTrans(start, before, session.events);
      ContinuesPrefix(start, before);
      ReportsSince(result.toolCalls, texts, sources, start, before, session.events);
      ToolsRan(d, given);
      r := GoOn;
    }

    lemma EndedAfter(last: Turn, before: seq<Event>)
      requires Continues(last.start, before) && Ends(before, session.events) && !Succeeded(session.events)
      requires |session.events| > 0
      requires session.events[|session.events| - 1] == RunFinished("cancelled", Some("cancelled"))
      ensures EndedInTools(last)
    {
      ContinuesThenEnds(last.start, before, session.events);
    }

    lemma AskedForTools(last: Turn, items: seq<Message>)
      requires AtTools(last, items)
      ensures calls > 0 && replies(calls - 1).Returned? && replies(calls - 1).result.toolCalls != []
      ensures last.firstCall <= KeptCall(last) == calls - 1
    {}

    lemma ToolsRan(d: Ran, items: seq<Message>)
      requires AtTools(d.turn, items) && d.turn.start <= d.stop
      requires |d.texts| == |replies(calls - 1).result.toolCalls|
      requires TextsReported(replies(calls - 1).result.toolCalls, d.texts, d.stop[|d.turn.start|..])
      requires ToolsAnswered(replies(calls - 1).result.toolCalls, d.texts, d.stop[|d.turn.start|..], d.sources, false)
      ensures RanTools(d, items + ToolTurn(replies(calls - 1).result, d.texts), windows)
    {
      hide TextsReported, ToolsAnswered, Talked, AllTruncated, CallsTools, ToolTurn;
      TalkedItems(d.turn.given, items, windows, |d.turn.shown|, d.turn.discardedCalls);
    }

    lemma CrashedNow(crash: Crash, error: string, last: Turn, items: seq<Message>)
      requires Continues(last.start, crash.start) && AtTools(last, items)
      requires running == replies(calls - 1).result.toolCalls && |tasks| == |running|
      requires After(Work(), Start(Work(), crash.start), crash.acts) == Now(Failing(Handler(error, Partial(notes))))
      ensures CrashedIn(last, crash, error)
    {}

    lemma TalkedItems(given: seq<Message>, items: seq<Message>, ws: seq<seq<Message>>, w: nat, n: nat)
      requires Talked(given, items, ws, w, n + 1)
      ensures w + n < |ws| && items == ws[w + n]
    {}

    lemma ReportsSince(toolCalls: seq<ToolCall>, texts: seq<string>, sources: seq<Option<nat>>, start: seq<Event>,
        before: seq<Event>, log: seq<Event>)
      requires start <= before <= log && |toolCalls| == |texts|
      requires TextsReported(toolCalls, texts, log[|before|..])
      requires ToolsAnswered(toolCalls, texts, log[|before|..], sources, false)
      ensures TextsReported(toolCalls, texts, log[|start|..])
      ensures ToolsAnswered(toolCalls, texts, log[|start|..], sources, false)
    {
      assert log[|start|..] == before[|start|..] + log[|before|..];
    }

    /** The text that comes with tool calls is noted, and emitted as reasoning if it did not stream. */
    method Note(content: string, streamed: bool, ghost start: seq<Event>, ghost n: nat, ghost turn: int)
      requires Continues(start, session.events) && StartsTurn(start, session.events, n, turn)
      modifies this`notes, session
      ensures Continues(start, session.events) && StartsTurn(start, session.events, n, turn)
      ensures notes == old(notes) + NoteOf(content)
      ensures ReasoningOf(session.events) == ReasoningOf(old(session.events)) + if streamed then "" else content
    {
      hide Grew, Continues, Requested, ReasoningOf;
      ghost var log := session.events;
      if content != "" {
        notes := notes + [content];
        if !streamed {
          EmitReasoning(content);
          GrewContinues(log, session.events, "");
          ContinuesTrans(start, log, session.events);
          GrewRequests(log, session.events, "");
          TurnStays(start, log, session.events, n, turn);
        }
      }
    }

    /** The turn loop: up to cap turns, or until a turn ends the run. A run without a cap is in the state
        this leaves it in after any number of turns. */
    method Turns(cap: int, maxContinuations: int, maxReportChars: int)
        returns (r: Step, ghost last: Turn, ghost crash: Option<Crash>, ghost done: seq<Ran>)
      requires NoneLeft()
      modifies this, session, packer, messages
      ensures 0 <= calls - old(calls) <= Max0(cap) * (Max0(maxContinuations) + 3)
      ensures Counted(old(windows), windows, calls - old(calls))
      ensures old(Paired()) ==> WindowsPaired() && (crash.None? ==> Paired())
      ensures r.Over? ==> Ends(old(session.events), session.events)
      ensures !r.Over? && crash.None? ==> Continues(old(session.events), session.events)
      ensures r.GoOn? ==>
        && Requested(old(session.events), session.events, calls - old(calls))
        && OfTurns(old(session.events), session.events, 1, cap)
      ensures crash.None? ==> NoneLeft()
      ensures crash.Some? ==>
        && r.Threw? && !WellPaired(messages.items)
        && Crashed(crash.value, Failing(Handler(r.error, Partial(notes))), old(session.events), old(calls))
      ensures IsLast(last, old(session.events), old(calls)) && Spoke(last) && last.choice == Auto
      ensures Went(done, old(messages.items), old(session.events), old(calls), old(windows), last.given, last.start,
          last.firstCall, last.shown)
      ensures last.number == |done| + 1 <= Max0(cap) + 1 && (last.number == Max0(cap) + 1 ==> r.GoOn?)
      ensures r.Over? ==> Answered(last, maxReportChars) && EndsRight(last, None, maxReportChars, LastTwo())
      ensures r.Threw? ==> ThrewRight(last, crash, r.error)
      ensures r.GoOn? ==>
        && last == Turn(Max0(cap) + 1, Auto, messages.items, session.events, windows, calls, 0)
      ensures NotedRight(done, crash, old(notes)) || (r.Over? && session.Cancelled())
      ensures old(session.Cancelled()) ==> calls == old(calls) && session.Cancelled() && !r.Threw?
    {
      hide Ends, Continues, Answered, IsLast, Requested, Partial, Handler, After, WellPaired;
      hide OfTurns, Mixed, Crashed, WindowsPaired, RanTools, Went, EndsRight, ThrewRight, NotesOf, Spoke, Paired;
      hide NoneLeft;
      ghost var start, from, shown, given, noted := session.events, calls, windows, messages.items, notes;
      ghost var each := Max0(maxContinuations) + 3;
      ContinuesRefl(start);
      NoRequest(start);
      OfNoTurn(start, start, 1, 0);
      WentNowhere(given, start, from, shown);
      crash, done := None, [];
      var turn := 0;
      while true
        invariant 0 <= turn <= Max0(cap) && crash.None? && NoneLeft() && |done| == turn
        invariant 0 <= calls - from <= turn * each
        invariant Counted(shown, windows, calls - from)
        invariant old(Paired()) ==> Paired()
        invariant Continues(start, session.events) && Requested(start, session.events, calls - from)
        invariant OfTurns(start, session.events, 1, turn)
        invariant Went(done, given, start, from, shown, messages.items, session.events, calls, windows)
        invariant notes == noted + NotesOf(done)
        invariant old(session.Cancelled()) ==> turn == 0 && session.Cancelled() && calls == from
        decreases Max0(cap) - turn
      {
        assert (turn + 1) * each == turn * each + each;
        turn := turn + 1;
        last := Turn(turn, Auto, messages.items, session.events, windows, calls, 0);
        NoTurn(start, from, turn, Auto, messages.items);
        NotSpoken(last);
        if turn > cap {
          assert (turn - 1) * each <= Max0(cap) * each;
          UpTo(start, session.events, turn - 1, cap);
          PairedWindows();
          return GoOn, last, crash, done;
        }
        assert turn * each <= Max0(cap) * each;
        ghost var d;
        r, last, crash, d := NextTurn(turn, maxContinuations, maxReportChars, start, from);
        if !r.GoOn? {
          return r, last, crash, done;
        }
        WentMore(done, d, given, start, from, shown, messages.items, windows);
        done := done + [d];
      }
    }

    /** The notes are the texts of the turns that ran their tools, and of one whose tools raised. */
    ghost predicate NotedRight(done: seq<Ran>, crash: Option<Crash>, noted: seq<string>)
      reads this`calls, this`notes
    {
      && (crash.Some? ==> 0 < calls && replies(calls - 1).Returned?)
      && notes == if crash.None? then noted + NotesOf(done)
                  else noted + NotesOf(done) + NoteOf(replies(calls - 1).result.content)
    }

    lemma WentNowhere(given: seq<Message>, start: seq<Event>, from: nat, ws: seq<seq<Message>>)
      ensures Went([], given, start, from, ws, given, start, from, ws) && NotesOf([]) == []
    {}

    lemma NotSpoken(last: Turn)
      requires last.firstCall == calls
      ensures Spoke(last)
    {}

    lemma PairedWindows()
      ensures Paired() ==> WindowsPaired() && WellPaired(messages.items)
    {}

    /** One round of the loop: a cancelled run ends, any other takes a turn. */
    method NextTurn(turn: int, maxContinuations: int, maxReportChars: int, ghost start: seq<Event>, ghost from: nat)
        returns (r: Step, ghost last: Turn, ghost crash: Option<Crash>, ghost d: Ran)
      requires NoneLeft() && turn >= 1 && from <= calls
      requires Continues(start, session.events)
      requires Requested(start, session.events, calls - from) && OfTurns(start, session.events, 1, turn - 1)
      modifies this, session, packer, messages
      ensures old(calls) <= calls <= old(calls) + Max0(maxContinuations) + 1 + MAX_TRUNCATED_TOOL_CALL_REGENERATIONS
      ensures Counted(old(windows), windows, calls - old(calls))
      ensures old(Paired()) ==> WindowsPaired() && (crash.None? ==> Paired())
      ensures r.Over? ==> Ends(start, session.events)
      ensures !r.Over? && crash.None? ==> Continues(start, session.events)
      ensures r.GoOn? ==> Requested(start, session.events, calls - from) && OfTurns(start, session.events, 1, turn)
      ensures crash.None? ==> NoneLeft()
      ensures crash.Some? ==>
        && r.Threw? && !WellPaired(messages.items)
        && Crashed(crash.value, Failing(Handler(r.error, Partial(notes))), start, from)
      ensures IsLast(last, start, from) && Spoke(last)
      ensures last == Turn(turn, Auto, old(messages.items), old(session.events), old(windows), old(calls),
          last.discardedCalls)
      ensures r.Over? ==> Answered(last, maxReportChars) && EndsRight(last, None, maxReportChars, LastTwo())
      ensures r.Threw? ==> ThrewRight(last, crash, r.error)
      ensures r.GoOn? ==>
        && d.turn == last && d.stop == session.events && calls == KeptCall(last) + 1
        && RanTools(d, messages.items, windows)
        && replies(calls - 1).Returned? && notes == old(notes) + NoteOf(replies(calls - 1).result.content)
      ensures crash.Some? ==>
        calls > 0 && replies(calls - 1).Returned? && notes == old(notes) + NoteOf(replies(calls - 1).result.content)
      ensures (r.Threw? && crash.None?) || (r.Over? && !session.Cancelled()) ==> notes == old(notes)
      ensures old(session.Cancelled()) ==> r.Over? && calls == old(calls) && session.Cancelled()
    {
      hide Ends, Continues, Answered, IsLast, Requested, Partial, Handler, After, WellPaired;
      hide OfTurns, Mixed, Crashed, WindowsPaired, NoneLeft, StartsTurn, RanTools, EndsRight, ThrewRight, Spoke;
      ghost var log, sofar := session.events, calls;
      if session.Cancelled() {
        CancelRun(start);
        last, crash := Turn(turn, Auto, messages.items, log, windows, calls, 0), None;
        d := Ran(last, [], [], []);
        NoTurnYet(last, log, start, from);
        NotSpoken(last);
        CancelledEndsNow(last, maxReportChars);
        NotAnswered(last, maxReportChars);
        return Over, last, crash, d;
      }
      r, last, crash, d := StepBody(turn, maxContinuations, maxReportChars);
      TurnCounts(last, log, sofar, start, from);
      LastSince(last, log, sofar, start, from);
      if r.Over? {
        ContinuesThenEnds(start, log, session.events);
      } else if crash.Some? {
        CrashedSince(crash.value, Failing(Handler(r.error, Partial(notes))), start, log, sofar, from);
      } else {
        ContinuesTrans(start, log, session.events);
      }
    }

    lemma CrashedSince(crash: Crash, main: Main, start: seq<Event>, log: seq<Event>, sofar: nat, from: nat)
      requires Continues(start, log) && from <= sofar && Crashed(crash, main, log, sofar)
      ensures Crashed(crash, main, start, from)
    {
      ContinuesTrans(start, log, crash.start);
    }

    /** After a turn, the calls announced on the log are counted. */
    lemma TurnCounts(last: Turn, log: seq<Event>, sofar: nat, start: seq<Event>, from: nat)
      requires IsLast(last, log, sofar) && last.firstCall == sofar && last.start == log && from <= sofar
      requires Requested(start, log, sofar - from) && OfTurns(start, log, 1, last.number - 1) && last.number >= 1
      ensures Requested(start, session.events, calls - from) && OfTurns(start, session.events, 1, last.number)
    {
      RequestedTrans(start, log, session.events, sofar - from, calls - sofar);
      OfTurnsTrans(start, log, session.events, 1, last.number - 1, last.number);
    }

    /** A turn that was not begun stays the last one. */
    lemma NoTurnYet(last: Turn, log: seq<Event>, start: seq<Event>, from: nat)
      requires last == Turn(last.number, last.choice, last.given, log, windows, calls, 0) && from <= calls
      requires Requested(start, log, calls - from) && OfTurns(start, log, 1, last.number - 1)
      requires Requested(log, session.events, 0)
      ensures IsLast(last, start, from)
    {
      OfNoTurn(log, session.events, last.number, last.number);
    }

    method CancelRun(ghost start: seq<Event>)
      requires Continues(start, session.events)
      modifies session
      ensures Ends(start, session.events) && !Succeeded(session.events)
      ensures Requested(old(session.events), session.events, 0)
      ensures |session.events| >= 2 && session.events[|session.events| - 2].MessageCompleted?
      ensures session.events[|session.events| - 1] == RunFinished("cancelled", Some("cancelled"))
      ensures old(session.Cancelled()) ==> session.Cancelled()
    {
      ghost var mid := session.events;
      FinishRun("cancelled", Partial(notes), Some("cancelled"));
      FinishEnds(start, mid, MessageCompleted(Partial(notes), false), RunFinished("cancelled", Some("cancelled")));
      RequestedNone(mid, session.events);
    }

    /** A run begins without notes and without tool calls. */
    method Begin()
      modifies this`notes, this`running, this`tasks
      ensures notes == [] && NoneLeft()
    {
      notes, running, tasks := [], [], [];
    }

    /** Every turn before the last one ran its tools, and the last one is the one after them, or after the cap one
        without tools. */
    ghost predicate Followed(done: seq<Ran>, last: Turn, cap: int, given: seq<Message>, start: seq<Event>, from: nat,
        ws0: seq<seq<Message>>)
    {
      && Went(done, given, start, from, ws0, last.given, last.start, last.firstCall, last.shown)
      && if last.choice == Auto then last.number == |done| + 1 <= cap
         else last.number == cap + 1 && |done| == Max0(cap)
    }

    /** The turn loop, and after the cap one more turn. */
    method TurnsAndLast(cap: int, maxContinuations: int, maxReportChars: int)
        returns (r: Step, ghost last: Turn, ghost crash: Option<Crash>, ghost done: seq<Ran>)
      requires NoneLeft()
      modifies this, session, packer, messages
      ensures !r.GoOn?
      ensures calls - old(calls) <= Max0(cap) * (Max0(maxContinuations) + 3) + Max0(maxContinuations) + 1
      ensures Counted(old(windows), windows, calls - old(calls))
      ensures old(Paired()) ==> WindowsPaired() && (crash.None? ==> Paired())
      ensures r.Over? ==> Ends(old(session.events), session.events)
      ensures r.Threw? && crash.None? ==> Continues(old(session.events), session.events)
      ensures crash.None? ==> NoneLeft()
      ensures crash.Some? ==>
        && r.Threw? && !WellPaired(messages.items)
        && Crashed(crash.value, Failing(Handler(r.error, Partial(notes))), old(session.events), old(calls))
      ensures IsLast(last, old(session.events), old(calls)) && Spoke(last)
      ensures Followed(done, last, cap, old(messages.items), old(session.events), old(calls), old(windows))
      ensures r.Over? ==> Answered(last, maxReportChars) && EndsRight(last, None, maxReportChars, LastTwo())
      ensures r.Threw? ==> ThrewRight(last, crash, r.error)
      ensures NotedRight(done, crash, old(notes)) || (r.Over? && session.Cancelled())
      ensures old(session.Cancelled()) ==> calls == old(calls) && session.Cancelled() && !r.Threw?
    {
      hide Ends, Continues, Answered, IsLast, Partial, Handler, After, WellPaired, Requested;
      hide Crashed, WindowsPaired, OfTurns, Mixed, Went, EndsRight, ThrewRight, NotesOf, Spoke, NoneLeft;
      ghost var start, from := session.events, calls;
      r, last, crash, done := Turns(cap, maxContinuations, maxReportChars);
      if r.GoOn? {
        ghost var log, sofar := session.events, calls;
        r, last := LastTurn(cap + 1, maxContinuations, maxReportChars);
        LastSince(last, log, sofar, start, from);
        PairedWindows();
        if r.Over? {
          ContinuesThenEnds(start, log, session.events);
        } else {
          ContinuesTrans(start, log, session.events);
        }
      }
    }

    /** A whole run with a turn cap: whatever the model, the tools, the argument parser and the cancel flag do, it makes
        at most cap * (C + 3) + C + 1 model calls, each on a window of its own, and completes one message and finishes
        once. It ends properly, with nothing after that and no tool call open, unless a reply mixes tool calls whose
        arguments parse with tool calls whose arguments do not. Every turn before the last ran its tools, and how the
        run ends is decided by its last reply, unless it was cancelled. */
    method RunLoop(cap: int, maxContinuations: int, maxReportChars: int)
        returns (ghost last: Turn, ghost crash: Option<Crash>, ghost done: seq<Ran>)
      modifies this, session, packer, messages
      ensures Outcome(crash, old(session.events), old(calls)) && EndsOnce(old(session.events), session.events)
      ensures !Mixed(parser, running) || Unmixed(old(calls)) ==> Ends(old(session.events), session.events)
      ensures EndsRight(last, crash, maxReportChars, Endings(session.events[|old(session.events)|..]))
      ensures Followed(done, last, cap, old(messages.items), old(session.events), old(calls), old(windows))
      ensures session.Cancelled() || NotedRight(done, crash, [])
      ensures old(session.Cancelled()) ==> calls == old(calls) && session.Cancelled()
      ensures calls - old(calls) <= Max0(cap) * (Max0(maxContinuations) + 3) + Max0(maxContinuations) + 1
      ensures Counted(old(windows), windows, calls - old(calls))
      ensures old(Paired()) ==> WindowsPaired() && (crash.None? <==> WellPaired(messages.items))
      ensures IsLast(last, old(session.events), old(calls)) && Spoke(last) && Answered(last, maxReportChars)
    {
      hide *;
      ghost var start, from := session.events, calls;
      Begin();
      var r;
      r, last, crash, done := TurnsAndLast(cap, maxContinuations, maxReportChars);
      PairedWindows();
      if r.Threw? {
        ghost var raised := crash;
        crash := Unwind(r.error, last, crash, start, from, maxReportChars);
        NotedSame(done, raised, crash);
        NotAnswered(last, maxReportChars);
      } else {
        EndedIsOutcome(start, from);
        EndsRightNow(last, maxReportChars, start);
      }
      OutcomeEnds(crash, start, from);
    }

    lemma Max0Nat(n: nat)
      ensures Max0(n) == n
    {}

    lemma NotedSame(done: seq<Ran>, crash: Option<Crash>, crash': Option<Crash>)
      requires crash.Some? <==> crash'.Some?
      ensures NotedRight(done, crash, []) ==> NotedRight(done, crash', [])
    {}

    lemma EndsRightNow(last: Turn, limit: int, start: seq<Event>)
      requires Ends(start, session.events) && EndsRight(last, None, limit, LastTwo())
      ensures start <= session.events && EndsRight(last, None, limit, Endings(session.events[|start|..]))
    {
      hide EndsRight;
      EndsIsOnce(start, session.events);
    }

    /** An exception has reached the handler around the whole run. */
    method Unwind(error: string, ghost last: Turn, ghost crash: Option<Crash>, ghost start: seq<Event>, ghost from: nat,
        ghost limit: int)
        returns (ghost crash': Option<Crash>)
      requires crash.None? ==> NoneLeft() && Continues(start, session.events)
      requires crash.Some? ==> Crashed(crash.value, Failing(Handler(error, Partial(notes))), start, from)
      requires IsLast(last, start, from) && ThrewRight(last, crash, error)
      modifies this`tasks, this`invocations, session
      ensures Outcome(crash', start, from) && (crash'.Some? <==> crash.Some?)
      ensures !Succeeded(session.events) && IsLast(last, start, from)
      ensures start <= session.events && EndsRight(last, crash', limit, Endings(session.events[|start|..]))
    {
      hide *;
      LastParts(last, start, from);
      ghost var log := session.events;
      CrashedFacts(crash, error, start, from, last);
      ghost var acts := Fail(error);
      crash' := if crash.None? then None else Some(Crash(crash.value.start, crash.value.acts + acts));
      Unwound(crash, acts, log, error, last, start, from, limit);
    }

    lemma LastParts(last: Turn, start: seq<Event>, from: nat)
      requires IsLast(last, start, from)
      ensures LastOf(last, start, from)
      ensures StartsTurn(last.start, session.events, calls - last.firstCall, last.number)
    {}

    lemma Unwound(crash: Option<Crash>, acts: seq<Act>, log: seq<Event>, error: string, last: Turn, start: seq<Event>,
        from: nat, limit: int)
      requires crash.None? ==>
        NoneLeft() && Continues(start, log) && session.events == log + Handler(error, Partial(notes))
      requires crash.Some? ==>
        && |tasks| == |running| && Continues(start, crash.value.start) && from < calls
        && replies(calls - 1).Returned? && running == replies(calls - 1).result.toolCalls
        && After(Work(), Start(Work(), crash.value.start), crash.value.acts).log == log
        && After(Work(), After(Work(), Start(Work(), crash.value.start), crash.value.acts), acts) == Now(Failing([]))
      requires LastOf(last, start, from) && ThrewRight(last, crash, error)
      requires StartsTurn(last.start, log, calls - last.firstCall, last.number)
      ensures
        var crash' := if crash.None? then None else Some(Crash(crash.value.start, crash.value.acts + acts));
        && Outcome(crash', start, from) && !Succeeded(session.events) && IsLast(last, start, from)
        && start <= session.events && EndsRight(last, crash', limit, Endings(session.events[|start|..]))
    {
      hide Ends, Continues, Partial, After, Requested, EndsRight, Handler, Outcome, NoneLeft, LastOf, StartsTurn, Start;
      match crash {
        case None => AfterRaise(last, log, error, start, from, limit);
        case Some(c) => AfterCrash(last, c, acts, log, error, start, from, limit);
      }
      TurnStays(last.start, log, session.events, calls - last.firstCall, last.number);
    }

    lemma CrashedFacts(crash: Option<Crash>, error: string, start: seq<Event>, from: nat, last: Turn)
      requires crash.None? ==> NoneLeft()
      requires crash.Some? ==> Crashed(crash.value, Failing(Handler(error, Partial(notes))), start, from)
      requires ThrewRight(last, crash, error)
      ensures |tasks| == |running|
      ensures crash.Some? ==>
        && ToolsThrew(last) && Continues(start, crash.value.start) && from < calls
        && replies(calls - 1).Returned? && running == replies(calls - 1).result.toolCalls
        && After(Work(), Start(Work(), crash.value.start), crash.value.acts)
           == Now(Failing(Handler(error, Partial(notes))))
        && After(Work(), Start(Work(), crash.value.start), crash.value.acts).log == session.events
    {}

    lemma AfterRaise(last: Turn, log: seq<Event>, error: string, start: seq<Event>, from: nat, limit: int)
      requires NoneLeft() && Continues(start, log) && session.events == log + Handler(error, Partial(notes))
      requires ThrewRight(last, None, error)
      ensures Outcome(None, start, from) && !Succeeded(session.events) && Requested(log, session.events, 0)
      ensures start <= session.events && EndsRight(last, None, limit, Endings(session.events[|start|..]))
    {
      hide Ends, Continues, Partial, Requested, EndsRight, Mixed, ThrewRight;
      HandledEnds(start, log, error, Partial(notes));
      HandlerIsFailure(log, error, Partial(notes));
      HandlerQuiet(log, error, Partial(notes));
      EndsIsOnce(start, session.events);
      RaisedEndsRight(last, error, limit);
    }

    lemma AfterCrash(last: Turn, c: Crash, acts: seq<Act>, log: seq<Event>, error: string, start: seq<Event>, from: nat,
        limit: int)
      requires ToolsThrew(last) && |tasks| == |running| && Continues(start, c.start) && from < calls
      requires replies(calls - 1).Returned? && running == replies(calls - 1).result.toolCalls
      requires After(Work(), Start(Work(), c.start), c.acts).log == log
      requires After(Work(), After(Work(), Start(Work(), c.start), c.acts), acts) == Now(Failing([]))
      ensures
        var crash := Some(Crash(c.start, c.acts + acts));
        && Outcome(crash, start, from) && !Succeeded(session.events) && Requested(log, session.events, 0)
        && start <= session.events && EndsRight(last, crash, limit, Endings(session.events[|start|..]))
    {
      hide Ends, Continues, Partial, After, Requested, EndsRight, ToolsThrew, Start;
      AfterAppend(Work(), Start(Work(), c.start), c.acts, acts);
      OutcomeEnds(Some(Crash(c.start, c.acts + acts)), start, from);
      HistoryQuiet(Work(), c.start, c.acts, acts);
      CrashEndsRight(last, Crash(c.start, c.acts + acts), start, from, limit);
    }

    lemma RaisedEndsRight(last: Turn, error: string, limit: int)
      requires ThrewRight(last, None, error)
      ensures
        var h := Handler(error, Partial(notes));
        EndsRight(last, None, limit, [h[1], h[2]])
    {
      hide Partial, Joined;
    }

    lemma CrashEndsRight(last: Turn, crash: Crash, start: seq<Event>, from: nat, limit: int)
      requires Crashed(crash, Failing([]), start, from) && ToolsThrew(last)
      ensures start <= session.events && EndsRight(last, Some(crash), limit, Endings(session.events[|start|..]))
    {
      hide Ends, Continues, After, Proper, Start, Kept, Partial, Joined, NormalizeFinish;
      HistoryKept(Work(), crash.start, crash.acts);
      FailedEndsOnce(Work(), crash.start, Now(Failing([])));
      ContinuesThenEndsOnce(start, crash.start, session.events);
      var j :| 0 <= j < |running| && FailedBy(Work(), session.events[|crash.start|..], j);
      assert FailedByCall(Endings(session.events[|start|..])[1]);
    }

    /** Afterwards tasks that were left behind may go on, for as long as they like. */
    method Linger(ghost crash: Option<Crash>, ghost start: seq<Event>, ghost from: nat)
        returns (ghost crash': Option<Crash>)
      requires Outcome(crash, start, from)
      modifies this`tasks, this`invocations, session
      ensures Outcome(crash', start, from) && EndsOnce(start, session.events)
      ensures !Mixed(parser, running) || Unmixed(from) ==> Ends(start, session.events)
    {
      hide Ends, EndsOnce, Continues, Partial, After, Kept;
      ghost var acts := Drift(Failing([]));
      crash' := None;
      if crash.Some? {
        var c := crash.value;
        AfterAppend(Work(), Start(Work(), c.start), c.acts, acts);
        crash' := Some(Crash(c.start, c.acts + acts));
      }
      OutcomeEnds(crash', start, from);
    }

    /** After the last turn allowed, one logical assistant without tools, unless the run is cancelled by then. */
    method LastTurn(turn: int, maxContinuations: int, maxReportChars: int) returns (r: Step, ghost last: Turn)
      modifies this`calls, this`windows, session, packer, messages
      ensures !r.GoOn? && calls <= old(calls) + Max0(maxContinuations) + 1
      ensures Counted(old(windows), windows, calls - old(calls))
      ensures old(Paired()) ==> Paired()
      ensures r.Over? ==> Ends(old(session.events), session.events) && Answered(last, maxReportChars)
      ensures r.Threw? ==> Continues(old(session.events), session.events)
      ensures IsLast(last, old(session.events), old(calls)) && Spoke(last)
      ensures last == Turn(turn, NoTools, old(messages.items), old(session.events), old(windows), old(calls), 0)
      ensures r.Over? ==> EndsRight(last, None, maxReportChars, LastTwo())
      ensures r.Threw? ==> ThrewRight(last, None, r.error)
      ensures old(session.Cancelled()) ==> r.Over? && calls == old(calls) && session.Cancelled()
    {
      hide *;
      ghost var start, from, shown, given := session.events, calls, windows, messages.items;
      last := Turn(turn, NoTools, given, start, shown, from, 0);
      if session.Cancelled() {
        ContinuesRefl(start);
        CancelRun(start);
        NotBegun(last, start);
        CancelledEndsNow(last, maxReportChars);
        NotAnswered(last, maxReportChars);
        return Over, last;
      }
      var out;
      ghost var regens, continuations, text;
      out, regens, continuations, text := LogicalAssistant(turn, NoTools, maxContinuations);
      Assisted(last, out, continuations, maxContinuations, messages.items, session.Cancelled());
      match out {
        case RaisedOut(error) =>
          LastIs(last, text);
          DecidedThrew(last, error, continuations, maxContinuations, session.Cancelled());
          return Threw(error), last;
        case Ended(shown, _, early) =>
          EndedIs(last, out, continuations, maxContinuations, maxReportChars, text);
        case Answer(_, _) =>
          AnsweredFreely(last, out, continuations, maxContinuations, session.Cancelled());
          NoCallsAsked(last, out, continuations, maxContinuations);
          FinishAnswer(out, maxReportChars, last, continuations, maxContinuations, text);
      }
      r := Over;
    }

    lemma NotBegun(last: Turn, start: seq<Event>)
      requires last == Turn(last.number, last.choice, last.given, start, windows, calls, 0)
      requires Requested(start, session.events, 0)
      ensures IsLast(last, start, calls) && Spoke(last) && Counted(windows, windows, 0)
    {
      NoRequest(start);
      OfNoTurn(start, start, 1, last.number - 1);
      NoTurnYet(last, start, start, calls);
      NotSpoken(last);
    }

    lemma NoCallsAsked(last: Turn, out: Logical, continuations: nat, maxContinuations: int)
      requires out.Answer? && LeftBy(last, out, continuations, maxContinuations, false) && last.choice == NoTools
      ensures out.result.toolCalls == []
    {
      hide Joined;
    }

    /** A run without a turn cap, as a subagent's, watched for this many turns: it is over, or it goes on. */
    method RunUncapped(turns: nat, maxContinuations: int, maxReportChars: int)
        returns (over: bool, ghost last: Turn, ghost crash: Option<Crash>, ghost done: seq<Ran>)
      modifies this, session, packer, messages
      ensures over ==>
        && Outcome(crash, old(session.events), old(calls)) && EndsOnce(old(session.events), session.events)
        && (!Mixed(parser, running) || Unmixed(old(calls)) ==> Ends(old(session.events), session.events))
        && EndsRight(last, crash, maxReportChars, Endings(session.events[|old(session.events)|..]))
      ensures !over ==> crash.None? && Continues(old(session.events), session.events) && |done| == turns
      ensures Went(done, old(messages.items), old(session.events), old(calls), old(windows), last.given, last.start,
          last.firstCall, last.shown)
      ensures last.number == |done| + 1 && last.choice == Auto
      ensures (over && session.Cancelled()) || NotedRight(done, crash, [])
      ensures calls - old(calls) <= turns * (Max0(maxContinuations) + 3)
      ensures Counted(old(windows), windows, calls - old(calls))
      ensures old(Paired()) ==> WindowsPaired() && (crash.None? <==> WellPaired(messages.items))
      ensures IsLast(last, old(session.events), old(calls)) && Spoke(last) && (over ==> Answered(last, maxReportChars))
    {
      hide *;
      Max0Nat(turns);
      ghost var start, from := session.events, calls;
      Begin();
      var r;
      r, last, crash, done := Turns(turns, maxContinuations, maxReportChars);
      over := !r.GoOn?;
      PairedWindows();
      if r.Threw? {
        ghost var raised := crash;
        crash := Unwind(r.error, last, crash, start, from, maxReportChars);
        NotedSame(done, raised, crash);
        NotAnswered(last, maxReportChars);
      } else if r.Over? {
        EndedIsOutcome(start, from);
        EndsRightNow(last, maxReportChars, start);
      }
      if over { OutcomeEnds(crash, start, from); }
    }
  }

  /** The start of a turn: n calls have been announced since, all of this turn, the first one at once. */
  ghost predicate StartsTurn(start: seq<Event>, log: seq<Event>, n: int, turn: int) {
    && Requested(start, log, n) && OfTurns(start, log, turn, turn)
    && (n > 0 ==> |start| < |log| && log[|start|].RunProgress?)
  }

  lemma UpTo(log: seq<Event>, log': seq<Event>, k: int, hi: int)
    requires OfTurns(log, log', 1, k) && (k <= hi || k <= 0)
    ensures OfTurns(log, log', 1, hi)
  {}

  lemma NoRequest(log: seq<Event>)
    ensures Requested(log, log, 0)
  {
    assert log[|log|..] == [];
  }

  lemma AskedGoesOn(start: seq<Event>, log: seq<Event>, text: string, n: int, turn: int)
    requires Asked(start, log, text, n, turn)
    ensures Continues(start, log) && StartsTurn(start, log, n, turn)
  {
    AskedContinues(start, log, text, n, turn);
  }

  lemma TurnStays(start: seq<Event>, log: seq<Event>, log': seq<Event>, n: int, turn: int)
    requires StartsTurn(start, log, n, turn) && Requested(log, log', 0)
    ensures StartsTurn(start, log', n, turn)
  {
    RequestedTrans(start, log, log', n, 0);
    OfNoTurn(log, log', turn, turn);
    OfTurnsTrans(start, log, log', turn, turn, turn);
  }

  lemma FailedNotSucceeded(start: seq<Event>, log: seq<Event>, b: Batch)
    requires start <= log && exists j :: 0 <= j < |b.calls| && FailedBy(b, log[|start|..], j)
    ensures !Succeeded(log)
  {
    var es := log[|start|..];
    if |log| >= 2 && EndsRun(log[|log| - 1]) && es != [] {
      assert Endings(es)[1] == es[|es| - 1];
    }
  }

  lemma ProperEnds(start: seq<Event>, m: Moment)
    requires Proper(start, m) && m.main == Failing([])
    ensures Ends(start, m.log)
  {}

  lemma HandlerIsFailure(log: seq<Event>, error: string, partial: string)
    ensures !Succeeded(log + Handler(error, partial))
  {}

  lemma HandlerQuiet(log: seq<Event>, error: string, partial: string)
    ensures Requested(log, log + Handler(error, partial), 0)
  {
    RequestedNone(log, log + Handler(error, partial));
  }

  /** What a tool turn that raised, and the handler, add announces no model call. */
  lemma HistoryQuiet(b: Batch, start: seq<Event>, acts: seq<Act>, more: seq<Act>)
    ensures
      var log := After(b, Start(b, start), acts).log;
      var log' := After(b, Start(b, start), acts + more).log;
      Requested(log, log', 0)
  {
    hide After, Advance, Kept, Requested;
    var all := After(b, Start(b, start), acts + more);
    HistoryKept(b, start, acts);
    HistoryKept(b, start, acts + more);
    KeptQuiet(b, start, After(b, Start(b, start), acts));
    AfterAppend(b, Start(b, start), acts, more);
    LogGrows(b, After(b, Start(b, start), acts), more);
    KeptQuietSince(b, start, After(b, Start(b, start), acts).log, all);
  }

  /** The window ends with text to continue and the request to continue it. */
  predicate Continuing(w: seq<Message>) {
    |w| >= 2 && IsContinuationPair(w[|w| - 2], w[|w| - 1])
  }

  lemma PairContinues(w: seq<Message>, committed: string)
    requires EndsWith(w, Run.ContinuationPair(committed))
    ensures Continuing(w)
  {
    hide CONTINUATION_PROMPT;
    var pair := Run.ContinuationPair(committed);
    assert w[|w| - 2] == pair[0] && w[|w| - 1] == pair[1];
  }

  /** n windows were added: one a call. */
  predicate Counted(ws0: seq<seq<Message>>, ws: seq<seq<Message>>, n: int) {
    ws0 <= ws && |ws| == |ws0| + n
  }

  lemma RoundsCount(ws0: seq<seq<Message>>, ws: seq<seq<Message>>, n: int, regens: nat)
    requires Rounds(ws0, ws, n, regens)
    ensures Counted(ws0, ws, n)
  {}

  lemma DecidedRaised(error: string, reply: Reply, choice: Choice, shown: string, regens: nat, continuations: nat,
      maxContinuations: int, cancelled: bool)
    requires reply.Raised? && reply.error == error
    ensures Decided(RaisedOut(error), reply, choice, shown, regens, continuations, maxContinuations, cancelled)
  {}

  lemma DecidedEarly(early: Early, seg: Segment, reply: Reply, choice: Choice, continuationFrom: Option<string>,
      shown: string, regens: nat, continuations: nat, maxContinuations: int, cancelled: bool)
    requires SegmentOf(reply, choice, continuationFrom, seg) && EarlyIs(early, seg.result, regens, cancelled)
    ensures Decided(Ended(shown, seg.result.toolCalls != [], early), reply, choice, shown, regens, continuations,
        maxContinuations, cancelled)
  {
    hide NormalizeFinish, ShownOf;
    assert seg.result.(content := shown) == reply.result.(content := shown, toolCalls := CallsOf(reply, choice));
    EarlyWithout(seg.result, shown, false, regens);
    hide EarlyEnd;
  }

  lemma LimitedReply(seg: Segment, reply: Reply, choice: Choice, continuationFrom: Option<string>)
    requires SegmentOf(reply, choice, continuationFrom, seg) && seg.result.toolCalls == []
    requires KindOf(reply, choice) == OutputLimit
    ensures Limited(reply, choice)
  {}

  lemma DecidedAnswer(seg: Segment, reply: Reply, choice: Choice, continuationFrom: Option<string>, shown: string,
      streamed: bool, regens: nat, continuations: nat, maxContinuations: int, cancelled: bool)
    requires SegmentOf(reply, choice, continuationFrom, seg) && EarlyEnd(seg.result, false, regens).None? && !cancelled
    requires KindOf(reply, choice) == OutputLimit ==>
               seg.result.toolCalls == [] && continuations == Max0(maxContinuations)
    ensures Decided(Answer(seg.result.(content := shown), streamed), reply, choice, shown, regens, continuations,
        maxContinuations, cancelled)
  {
    hide ShownOf, Blank;
  }

  lemma RaisedText(error: string, before: string, text: string)
    ensures LogicalText(RaisedOut(error), before, text)
  {}

  /** What a round that ends or goes on makes of the text so far. */
  lemma AfterRound(seg: Segment, before: string, committed: string, streamed: bool, said: string, text: string,
      early: Option<Early>)
    requires said == before + committed && (committed != "" ==> streamed) && RoundText(seg, said, text)
    requires seg.result.toolCalls != [] ==> committed == "" && !streamed
    ensures
      var content, streamed' := committed + seg.visible, streamed || seg.said;
      && (early.Some? ==> LogicalText(Ended(content, seg.result.toolCalls != [], early.value), before, text))
      && LogicalText(Answer(seg.result.(content := content), streamed'), before, text)
      && (seg.result.toolCalls == [] ==> text == before + content && (content != "" ==> streamed'))
  {
    assert before + committed + seg.visible == before + (committed + seg.visible);
    assert before + "" == before && "" + seg.visible == seg.visible;
  }

  lemma TextOfAnswer(out: Logical, discarded: string, text: string)
    requires LogicalText(out, discarded, text) && out.Answer? && out.result.toolCalls == []
    ensures text == discarded + out.result.content && (out.result.content != "" ==> out.streamed)
  {}

  /** n windows were added, one a call; after the calls thrown away and the one kept, all of them continue. */
  ghost predicate Rounds(ws0: seq<seq<Message>>, ws: seq<seq<Message>>, n: int, regens: nat) {
    && Counted(ws0, ws, n)
    && forall i :: |ws0| + regens < i < |ws| ==> Continuing(ws[i])
  }

  /** A round adds what it shows to the text on the log, if it shows it as an answer. */
  predicate RoundText(seg: Segment, said: string, text: string) {
    if seg.result.toolCalls == [] then text == said + seg.visible && (seg.visible != "" ==> seg.said)
    else text == said + if seg.said then seg.visible else ""
  }

  lemma RoundOutcome(reply: Reply, seg: Segment, choice: Choice, continuationFrom: Option<string>, said: string,
      piece: string)
    requires reply.Returned? && AttemptOutcome(reply, seg, choice, continuationFrom, piece)
    requires continuationFrom.Some? ==> choice == NoTools
    ensures seg.result.toolCalls != [] ==>
      choice != NoTools && seg.result == reply.result && piece == TextOfPieces(reply.pieces)
    ensures WholeOrNothing(reply) ==> RoundText(seg, said, said + piece)
    ensures SegmentOf(reply, choice, continuationFrom, seg)
  {}

  /** The text on the log is what discarded attempts said, then the text returned, or shown at an early end; a
      returned text counts as streamed. */
  predicate LogicalText(out: Logical, discarded: string, text: string) {
    && (out.Ended? && !out.hadCalls ==> text == discarded + out.shown)
    && (out.Answer? ==>
          text == discarded + if out.result.toolCalls == [] || out.streamed then out.result.content else "")
    && (out.Answer? && out.result.toolCalls == [] && out.result.content != "" ==> out.streamed)
  }

  /** The reasoning on a log. */
  function ReasoningOf(es: seq<Event>): string {
    if es == [] then ""
    else ReasoningOf(es[..|es| - 1]) + if es[|es| - 1].ReasoningDelta? then es[|es| - 1].delta else ""
  }

  lemma {:induction false} NoReasoning(log: seq<Event>, es: seq<Event>)
    requires forall i :: 0 <= i < |es| ==> !es[i].ReasoningDelta?
    ensures ReasoningOf(log + es) == ReasoningOf(log)
    decreases |es|
  {
    if es == [] {
      assert log + es == log;
    } else {
      assert (log + es)[..|log + es| - 1] == log + es[..|es| - 1];
      NoReasoning(log, es[..|es| - 1]);
    }
  }

  lemma ForwardedIsNoReasoning(log: seq<Event>, log': seq<Event>, text: string)
    requires Forwarded(log, log', text)
    ensures ReasoningOf(log') == ReasoningOf(log)
  {
    hide ReasoningOf;
    assert log' == log + log'[|log|..];
    NoReasoning(log, log'[|log|..]);
  }

  lemma ReasoningSnoc(es: seq<Event>, piece: string)
    ensures ReasoningOf(es + [ReasoningDelta(piece)]) == ReasoningOf(es) + piece
  {
    assert (es + [ReasoningDelta(piece)])[..|es|] == es;
  }

  /** A run that succeeds streamed, in its last turn (since start, in n model calls and without a tool call), what
      discarded attempts had said and then the whole answer; its completed message is that answer, cut to the report
      limit. */
  ghost predicate AnswerStreamed(start: seq<Event>, log: seq<Event>, n: int, turn: int, limit: int, discarded: string) {
    Succeeded(log) ==>
      && |start| <= |log| - 2 && log[|log| - 2].MessageCompleted?
      && Asked(start, Body(log), StreamedText(start, log), n, turn)
      && exists answer: string ::
           StreamedText(start, log) == discarded + answer && log[|log| - 2].content == Take(answer, limit)
  }

  function StreamedText(start: seq<Event>, log: seq<Event>): string
    requires |start| <= |log| - 2
  {
    TextOf(Body(log)[|start|..])
  }

  lemma NothingToStream(start: seq<Event>, log: seq<Event>, n: int, turn: int, limit: int, discarded: string)
    requires !Succeeded(log)
    ensures AnswerStreamed(start, log, n, turn, limit, discarded)
  {
  }

  lemma AnswerOf(start: seq<Event>, log: seq<Event>, n: int, turn: int, discarded: string, answer: string, limit: int)
    requires |log| >= 2 && Asked(start, Body(log), discarded + answer, n, turn)
    requires log[|log| - 2].MessageCompleted? && log[|log| - 2].content == Take(answer, limit)
    ensures AnswerStreamed(start, log, n, turn, limit, discarded)
  {
    assert StreamedText(start, log) == discarded + answer;
  }

  /** The streamed text is the answer exactly when no attempt that had said something was thrown away. */
  lemma StreamedIsAnswer(start: seq<Event>, log: seq<Event>, n: int, turn: int, limit: int, discarded: string)
    requires AnswerStreamed(start, log, n, turn, limit, discarded) && Succeeded(log)
    ensures discarded == "" ==> log[|log| - 2].content == Take(StreamedText(start, log), limit)
    ensures limit >= |StreamedText(start, log)| ==>
      (log[|log| - 2].content == StreamedText(start, log) <==> discarded == "")
  {
    var answer: string :|
      StreamedText(start, log) == discarded + answer && log[|log| - 2].content == Take(answer, limit);
    assert "" + answer == answer;
    assert |StreamedText(start, log)| == |discarded| + |answer|;
  }

  lemma AskedEnds(start: seq<Event>, log: seq<Event>, text: string, n: int, turn: int)
    requires |log| >= 2 && Asked(start, Body(log), text, n, turn)
    requires log[|log| - 2].MessageCompleted? && log[|log| - 1].RunFinished? && IsEndStatus(log[|log| - 1].status)
    ensures Ends(start, log)
    ensures StartsTurn(start, log, n, turn)
  {
    AskedContinues(start, Body(log), text, n, turn);
    FinishEnds(start, Body(log), log[|log| - 2], log[|log| - 1]);
    assert log == Body(log) + [log[|log| - 2], log[|log| - 1]];
    RequestedNone(Body(log), log);
    RequestedTrans(start, Body(log), log, n, 0);
  }

  lemma EarlyEnds(start: seq<Event>, log: seq<Event>, text: string, n: int, turn: int, content: string, early: Early)
    requires EndedEarly(start, log, text, n, turn, content, early)
    ensures Ends(start, log) && !Succeeded(log)
    ensures StartsTurn(start, log, n, turn)
  {
    AskedEnds(start, log, text, n, turn);
  }

  function Results(calls: seq<ToolCall>, texts: seq<string>): seq<Message>
    requires |calls| == |texts|
  {
    seq(|calls|, i requires 0 <= i < |calls| => Tool(calls[i].id, texts[i]))
  }

  /** The calls as they stand in the conversation: without arguments they get an empty object. */
  function Recorded(calls: seq<ToolCall>): seq<ToolCall> {
    seq(|calls|, i requires 0 <= i < |calls| =>
      if calls[i].arguments == "" then calls[i].(arguments := "{}") else calls[i])
  }

  function ToolTurn(result: TurnResult, texts: seq<string>): seq<Message>
    requires |texts| == |result.toolCalls|
  {
    [Assistant(result.content, Recorded(result.toolCalls))] + Results(result.toolCalls, texts)
  }

  /** A tool turn as it stands in the conversation: the content and the calls, which all have arguments, then the
      results in call order. */
  lemma ToolTurnHolds(result: TurnResult, texts: seq<string>, i: nat)
    requires |texts| == |result.toolCalls| && i < |texts|
    ensures
      var turn, call := ToolTurn(result, texts), result.toolCalls[i];
      && |turn| == 1 + |texts| && turn[0].Assistant? && turn[0].content == result.content
      && |turn[0].calls| == |texts| && turn[0].calls[i].id == call.id && turn[0].calls[i].name == call.name
      && turn[0].calls[i].arguments == (if call.arguments == "" then "{}" else call.arguments)
      && turn[1 + i] == Tool(call.id, texts[i])
  {}

  /** A window for a continuation: what was said so far comes last but one, said by the model, then the prompt. */
  lemma ContinuationAsks(ms: seq<Message>, committed: string)
    requires EndsWith(ms, Run.ContinuationPair(committed))
    ensures |ms| >= 2 && ms[|ms| - 2] == Assistant(committed, []) && ms[|ms| - 1] == User(CONTINUATION_PROMPT)
  {
    assert Run.ContinuationPair(committed)[0] == Assistant(committed, []);
  }

  lemma ToolTurnPaired(ms: seq<Message>, result: TurnResult, texts: seq<string>)
    requires result.toolCalls != [] && |texts| == |result.toolCalls|
    ensures WellPaired(ms) ==> WellPaired(ms + ToolTurn(result, texts))
  {
    ToolTurnWellPaired(Assistant(result.content, Recorded(result.toolCalls)), Results(result.toolCalls, texts));
    if WellPaired(ms) {
      WellPairedAppend(ms, ToolTurn(result, texts));
    }
  }

  lemma ReportsStay(calls: seq<ToolCall>, texts: seq<string>, start: seq<Event>, log: seq<Event>, log': seq<Event>)
    requires |calls| == |texts| && start <= log <= log' && TextsReported(calls, texts, log[|start|..])
    ensures TextsReported(calls, texts, log'[|start|..])
  {
    assert log[|start|..] <= log'[|start|..];
  }

  lemma NotBlankNotEmpty(s: string)
    requires !Blank(s)
    ensures s != ""
  {
  }

  predicate Succeeded(log: seq<Event>) {
    |log| >= 2 && log[|log| - 1].RunFinished? && log[|log| - 1].status == "succeeded"
  }

  /** How a final answer ends the run: succeeded with the answer cut to the limit, cancelled, or failed because it is
      blank. */
  ghost predicate FinalOutcome(start: seq<Event>, log: seq<Event>, result: TurnResult, limit: int, partial: string,
      text: string) {
    && |log| >= 2
    && Grew(start, Body(log), text)
    && FinalEvents(log[|log| - 2], log[|log| - 1], result, limit, partial)
  }

  ghost predicate FinalEvents(completed: Event, finished: Event, result: TurnResult, limit: int, partial: string) {
    var shown := Take(result.content, limit);
    && completed.MessageCompleted? && finished.RunFinished?
    && (|| (finished == RunFinished("succeeded", None) && !Blank(shown) && completed.content == shown
            && (completed.truncated <==>
                  |result.content| > limit || NormalizeFinish(result.finishReason, false, false) == OutputLimit))
        || (finished == RunFinished("cancelled", Some("cancelled"))
            && completed == MessageCompleted(OrElse(shown, partial), false))
        || (finished == RunFinished("failed", Some(EMPTY_FINAL)) && Blank(shown)
            && completed == MessageCompleted(partial, false)))
  }

  ghost predicate EndsWith(ms: seq<Message>, tail: seq<Message>) {
    |tail| <= |ms| && ms[|ms| - |tail|..] == tail
  }

  predicate SinkFor(sink: Sink, continuationFrom: Option<string>) {
    match continuationFrom
    case None => sink.Live?
    case Some(previous) => sink.Continued? && sink.cont.previous == previous
  }

  lemma PreparedKeepsPairing(before: seq<Message>, after: seq<Message>, usePacker: bool, packer: ContextPacker)
    requires Prepared(before, after, usePacker, packer)
    ensures WellPaired(before) ==> WellPaired(after)
  {
    if after != before && WellPaired(before) {
      var k: nat :| Packed(before, after, packer.budget, packer.summaries(k));
      PackedKeepsPairing(before, after, packer.budget, packer.summaries(k));
    }
  }

  lemma PlainMessage(m: Message, ms: seq<Message>)
    requires !m.Tool? && !IsGroupHead(m)
    ensures WellPaired([m] + ms) <==> WellPaired(ms)
  {
    assert ([m] + ms)[1..] == ms;
  }

  lemma PairAppended(ms: seq<Message>, committed: string)
    ensures WellPaired(ms) ==> WellPaired(ms + Run.ContinuationPair(committed))
  {
    hide CONTINUATION_PROMPT;
    var pair := Run.ContinuationPair(committed);
    PlainMessage(pair[0], [pair[1]]);
    PlainMessage(pair[1], []);
    assert pair == [pair[0]] + [pair[1]] && [pair[1]] == [pair[1]] + [];
    hide WellPaired;
    if WellPaired(ms) {
      WellPairedAppend(ms, pair);
    }
  }

  lemma PreparedKeepsTail(ms: seq<Message>, committed: string, after: seq<Message>, usePacker: bool,
      packer: ContextPacker)
    requires Prepared(ms + Run.ContinuationPair(committed), after, usePacker, packer)
    ensures EndsWith(after, Run.ContinuationPair(committed))
  {
    hide CONTINUATION_PROMPT;
    var pair := Run.ContinuationPair(committed);
    assert IsContinuationPair(pair[0], pair[1]);
    hide Packed, IsContinuationPair;
    if after != ms + pair {
      var k: nat :| Packed(ms + pair, after, packer.budget, packer.summaries(k));
      PackedKeepsTrailingPair(ms, pair, after, packer.budget, packer.summaries(k));
    }
  }

  /** What a round shows of a reply, and what of it is on the log as answer text. */
  ghost predicate AttemptOutcome(reply: Reply, seg: Segment, choice: Choice, continuationFrom: Option<string>,
      text: string)
    requires reply.Returned?
  {
    && seg.result == (if choice == NoTools && reply.result.toolCalls != []
                      then reply.result.(content := seg.visible, toolCalls := []) else reply.result)
    && seg.visible == ShownOf(reply, continuationFrom)
    && (WholeOrNothing(reply) ==>
      && (continuationFrom.None? ==> seg.visible == reply.result.content)
      && (continuationFrom.Some? ==>
            seg.visible
            == VisibleText(reply.result.content, BoundaryOverlap(continuationFrom.value, reply.result.content)))
      && (seg.result.toolCalls == [] ==> text == seg.visible && (seg.visible != "" ==> seg.said))
      && (seg.result.toolCalls != [] ==> text == if seg.said then seg.visible else ""))
    && (seg.result.toolCalls != [] && continuationFrom.None? ==> text == TextOfPieces(reply.pieces))
  }

  /** What a round shows, by the overlap found and the text forwarded. */
  lemma Shown(reply: Reply, seg: Segment, choice: Choice, continuationFrom: Option<string>, overlap: nat,
      forwarded: string, text: string)
    requires reply.Returned? && (continuationFrom.Some? ==> choice == NoTools)
    requires
      var streamed := TextOfPieces(reply.pieces);
      && (continuationFrom.None? ==> overlap == 0 && forwarded == streamed)
      && (continuationFrom.Some? ==>
            && overlap == BoundaryOverlap(continuationFrom.value, streamed) <= |streamed|
            && forwarded == streamed[overlap..])
      && seg.visible == SegmentVisible(reply.result.content, overlap, continuationFrom, streamed != "")
    requires seg.result == if choice == NoTools && reply.result.toolCalls != []
                           then reply.result.(content := seg.visible, toolCalls := []) else reply.result
    requires
      var late := seg.visible != "" && TextOfPieces(reply.pieces) == "" && seg.result.toolCalls == [];
      seg.said == (late || forwarded != "") && text == if late then seg.visible else forwarded
    ensures AttemptOutcome(reply, seg, choice, continuationFrom, text)
  {
    hide BoundaryOverlap, TextOfPieces;
  }

  lemma AskedPrefix(log: seq<Event>, log': seq<Event>, text: string, n: int, turn: int)
    requires Asked(log, log', text, n, turn)
    ensures log <= log'
  {}

  lemma GrewPrefix(log: seq<Event>, log': seq<Event>, text: string)
    requires Grew(log, log', text)
    ensures log <= log'
  {}

  lemma CompactionGrew(before: seq<Message>, after: seq<Message>, log: seq<Event>, log': seq<Event>)
    requires log' == log || exists dropped: nat :: CompactionLogged(dropped, before, after, log, log')
    ensures Grew(log, log', "") && ReasoningOf(log') == ReasoningOf(log)
  {
    hide ReasoningOf;
    if log' == log {
      GrewNothing(log);
    } else {
      var dropped: nat :| CompactionLogged(dropped, before, after, log, log');
      GrewEmit(log, ContextCompacted(dropped, |after|, WindowTokens(before), WindowTokens(after)));
      NoReasoning(log, [ContextCompacted(dropped, |after|, WindowTokens(before), WindowTokens(after))]);
    }
  }

  /** The list as it was, or when a packer is used what it makes of it, given one of the answers of its summarizer. */
  ghost predicate Prepared(before: seq<Message>, after: seq<Message>, usePacker: bool, packer: ContextPacker) {
    if usePacker then exists k: nat :: Packed(before, after, packer.budget, packer.summaries(k)) else after == before
  }
}
