/** Reassembling one streamed completion: the chunk loop of openai_compat.py. */
module StreamAssembly {
  import opened Common
  import opened Decimal
  import opened Messages

  /** A piece of a tool call; absent texts are empty. Without a function part, fn is None. */
  datatype Fragment = Fragment(index: int, id: string, fn: Option<FnPart>)
  datatype FnPart = FnPart(name: string, arguments: string)

  datatype Delta = Delta(tools: seq<Fragment>, content: string, reasoning: string)

  /** A chunk has a first choice or none. */
  datatype Chunk = Chunk(usage: Option<(int, int)>, choice: Option<(string, Delta)>)

  datatype Rec = Rec(id: string, name: string, arguments: string)

  // Tool calls out of fragments

  function Grown(r: Rec, f: Fragment): Rec {
    var named := if f.id != "" then r.(id := f.id) else r;
    match f.fn
    case None => named
    case Some(p) => named.(name := named.name + p.name, arguments := named.arguments + p.arguments)
  }

  const EMPTY_REC := Rec("", "", "")

  function Accumulated(acc: map<int, Rec>, f: Fragment): map<int, Rec> {
    acc[f.index := Grown(if f.index in acc then acc[f.index] else EMPTY_REC, f)]
  }

  function Table(fs: seq<Fragment>): map<int, Rec> {
    if fs == [] then map[] else Accumulated(Table(fs[..|fs| - 1]), fs[|fs| - 1])
  }

  /** The fragments of one index, in order. */
  function Of(fs: seq<Fragment>, index: int): seq<Fragment> {
    if fs == [] then []
    else Of(fs[..|fs| - 1], index) + if fs[|fs| - 1].index == index then [fs[|fs| - 1]] else []
  }

  // What a record says, without its order of growth

  function Names(fs: seq<Fragment>): string {
    if fs == [] then "" else (if fs[0].fn.Some? then fs[0].fn.value.name else "") + Names(fs[1..])
  }

  function Arguments(fs: seq<Fragment>): string {
    if fs == [] then "" else (if fs[0].fn.Some? then fs[0].fn.value.arguments else "") + Arguments(fs[1..])
  }

  function LastId(fs: seq<Fragment>): string {
    if fs == [] then "" else if LastId(fs[1..]) != "" then LastId(fs[1..]) else fs[0].id
  }

  function RecOf(fs: seq<Fragment>): Rec {
    Rec(LastId(fs), Names(fs), Arguments(fs))
  }

  lemma {:induction false} RecOfSnoc(fs: seq<Fragment>, f: Fragment)
    ensures RecOf(fs + [f]) == Grown(RecOf(fs), f)
  {
    if fs == [] {
      assert [f][1..] == [] && fs + [f] == [f];
    } else {
      assert (fs + [f])[1..] == fs[1..] + [f];
      RecOfSnoc(fs[1..], f);
    }
  }

  /** An index is in the table when it has a fragment, and its record depends on its own fragments alone. */
  lemma {:induction false} TableByIndex(fs: seq<Fragment>, index: int)
    ensures index in Table(fs) <==> Of(fs, index) != []
    ensures index in Table(fs) ==> Table(fs)[index] == RecOf(Of(fs, index))
  {
    if fs != [] {
      var before, f := fs[..|fs| - 1], fs[|fs| - 1];
      TableByIndex(before, index);
      RecOfSnoc(Of(before, index), f);
      assert Of(before, index) + [] == Of(before, index);
    }
  }

  predicate IsLeast(m: int, s: set<int>) {
    m in s && forall k :: k in s ==> m <= k
  }

  lemma Inhabited(s: set<int>)
    ensures s == {} || exists x :: x in s
  {
    if !exists x :: x in s { assert s == {}; }
  }

  lemma {:induction false} HasLeast(s: set<int>)
    requires s != {}
    ensures exists m :: IsLeast(m, s)
    decreases |s|
  {
    Inhabited(s);
    var x :| x in s;
    var rest := s - {x};
    assert forall k :: k in s ==> k == x || k in rest;
    if rest == {} {
      assert IsLeast(x, s);
    } else {
      HasLeast(rest);
      var m :| IsLeast(m, rest);
      assert IsLeast(if x < m then x else m, s);
    }
  }

  ghost function Least(s: set<int>): (m: int)
    requires s != {}
    ensures IsLeast(m, s)
  {
    HasLeast(s);
    var m :| IsLeast(m, s);
    m
  }

  /** The elements of a set in ascending order. */
  ghost function Ascending(s: set<int>): (r: seq<int>)
    ensures forall i :: i in r <==> i in s
    ensures forall i, j :: 0 <= i < j < |r| ==> r[i] < r[j]
    decreases |s|
  {
    if s == {} then [] else [Least(s)] + Ascending(s - {Least(s)})
  }

  function CallOf(index: int, r: Rec): ToolCall {
    var id := if r.id == "" then "call_" + Decimal.Decimal(index) else r.id;
    ToolCall(id, r.name, if r.arguments == "" then "{}" else r.arguments)
  }

  function CallsIn(order: seq<int>, acc: map<int, Rec>): seq<ToolCall>
    requires forall i :: i in order ==> i in acc
  {
    if order == [] then [] else [CallOf(order[0], acc[order[0]])] + CallsIn(order[1..], acc)
  }

  /** The tool calls of a stream: one for each index, in index order. */
  ghost function Calls(fs: seq<Fragment>): seq<ToolCall> {
    CallsIn(Ascending(Table(fs).Keys), Table(fs))
  }

  lemma {:induction false} CallAt(order: seq<int>, acc: map<int, Rec>, k: nat)
    requires (forall i :: i in order ==> i in acc) && k < |order|
    ensures |CallsIn(order, acc)| == |order| && CallsIn(order, acc)[k] == CallOf(order[k], acc[order[k]])
  {
    if |order| > 1 { CallAt(order[1..], acc, if k == 0 then 0 else k - 1); }
  }

  /** The calls come in strictly ascending index order, one for each index that has a fragment, each with the
      joined names and arguments of its own fragments. */
  lemma CallsByIndex(fs: seq<Fragment>, k: nat)
    requires k < |Ascending(Table(fs).Keys)|
    ensures var order := Ascending(Table(fs).Keys);
            && |Calls(fs)| == |order| && Of(fs, order[k]) != []
            && Calls(fs)[k] == CallOf(order[k], RecOf(Of(fs, order[k])))
    ensures var index := Ascending(Table(fs).Keys)[k];
            var call, own := Calls(fs)[k], Of(fs, index);
            && call.name == Names(own) && call.arguments == (if Arguments(own) == "" then "{}" else Arguments(own))
            && call.id == if LastId(own) == "" then "call_" + Decimal.Decimal(index) else LastId(own)
  {
    var order := Ascending(Table(fs).Keys);
    CallAt(order, Table(fs), k);
    assert order[k] in order;
    TableByIndex(fs, order[k]);
  }

  /** How the fragments of different indices interleave does not matter. */
  lemma InterleavingIrrelevant(fs: seq<Fragment>, gs: seq<Fragment>)
    requires forall index :: Of(fs, index) == Of(gs, index)
    ensures Calls(fs) == Calls(gs)
  {
    forall index ensures index in Table(fs) <==> index in Table(gs) {
      TableByIndex(fs, index);
      TableByIndex(gs, index);
    }
    forall index | index in Table(fs) ensures Table(fs)[index] == Table(gs)[index] {
      TableByIndex(fs, index);
      TableByIndex(gs, index);
    }
    assert Table(fs) == Table(gs);
  }

  // The chunks

  function ToolsIn(chunk: Chunk): seq<Fragment> {
    if chunk.choice.Some? then chunk.choice.value.1.tools else []
  }

  function TextIn(chunk: Chunk): string {
    if chunk.choice.Some? then chunk.choice.value.1.content else ""
  }

  function ThoughtIn(chunk: Chunk): string {
    if chunk.choice.Some? then chunk.choice.value.1.reasoning else ""
  }

  function Fragments(chunks: seq<Chunk>): seq<Fragment> {
    if chunks == [] then [] else Fragments(chunks[..|chunks| - 1]) + ToolsIn(chunks[|chunks| - 1])
  }

  function Content(chunks: seq<Chunk>): string {
    if chunks == [] then "" else Content(chunks[..|chunks| - 1]) + TextIn(chunks[|chunks| - 1])
  }

  function Thought(chunks: seq<Chunk>): string {
    if chunks == [] then "" else Thought(chunks[..|chunks| - 1]) + ThoughtIn(chunks[|chunks| - 1])
  }

  /** The text of the chunks before the first tool call piece. */
  function ContentBeforeTools(chunks: seq<Chunk>): string {
    if chunks == [] then ""
    else if Fragments(chunks) != [] then ContentBeforeTools(chunks[..|chunks| - 1])
    else Content(chunks)
  }

  function Finish(chunks: seq<Chunk>): string {
    if chunks == [] then ""
    else
      var c := chunks[|chunks| - 1];
      if c.choice.Some? && c.choice.value.0 != "" then c.choice.value.0 else Finish(chunks[..|chunks| - 1])
  }

  function LastUsage(chunks: seq<Chunk>): Option<(int, int)> {
    if chunks == [] then None
    else if chunks[|chunks| - 1].usage.Some? then chunks[|chunks| - 1].usage
    else LastUsage(chunks[..|chunks| - 1])
  }

  /** The parts of a stream, chunk by chunk: its text, its reasoning and its pieces of tool calls are those of its
      chunks with a choice, in order. */
  lemma {:induction false} StreamParts(chunks: seq<Chunk>)
    ensures Content(chunks) ==
      Concat(seq(|chunks|, i requires 0 <= i < |chunks| =>
        match chunks[i].choice case Some((_, delta)) => delta.content case None => ""))
    ensures Thought(chunks) ==
      Concat(seq(|chunks|, i requires 0 <= i < |chunks| =>
        match chunks[i].choice case Some((_, delta)) => delta.reasoning case None => ""))
    decreases |chunks|
  {
    if chunks != [] {
      var n := |chunks| - 1;
      StreamParts(chunks[..n]);
      var texts := seq(|chunks|, i requires 0 <= i < |chunks| =>
        match chunks[i].choice case Some((_, delta)) => delta.content case None => "");
      var thoughts := seq(|chunks|, i requires 0 <= i < |chunks| =>
        match chunks[i].choice case Some((_, delta)) => delta.reasoning case None => "");
      ConcatSnoc(texts[..n], texts[n]);
      ConcatSnoc(thoughts[..n], thoughts[n]);
      assert texts == texts[..n] + [texts[n]] && thoughts == thoughts[..n] + [thoughts[n]];
      assert texts[..n] == seq(n, i requires 0 <= i < n =>
        match chunks[..n][i].choice case Some((_, delta)) => delta.content case None => "");
      assert thoughts[..n] == seq(n, i requires 0 <= i < n =>
        match chunks[..n][i].choice case Some((_, delta)) => delta.reasoning case None => "");
    }
  }

  lemma {:induction false} FragmentAt(chunks: seq<Chunk>, i: nat, k: nat)
    requires i < |chunks| && chunks[i].choice.Some? && k < |chunks[i].choice.value.1.tools|
    ensures chunks[i].choice.value.1.tools[k] in Fragments(chunks)
    decreases |chunks|
  {
    if i < |chunks| - 1 {
      FragmentAt(chunks[..|chunks| - 1], i, k);
    }
  }

  predicate GivesReason(chunk: Chunk) {
    chunk.choice.Some? && chunk.choice.value.0 != ""
  }

  /** The finish reason is the last one given, and the usage the last one reported. */
  lemma {:induction false} LastWords(chunks: seq<Chunk>, i: nat)
    requires i < |chunks|
    ensures GivesReason(chunks[i]) && (forall j :: i < j < |chunks| ==> !GivesReason(chunks[j])) ==>
      Finish(chunks) == chunks[i].choice.value.0
    ensures chunks[i].usage.Some? && (forall j :: i < j < |chunks| ==> chunks[j].usage.None?) ==>
      LastUsage(chunks) == chunks[i].usage
    decreases |chunks|
  {
    if i < |chunks| - 1 {
      LastWords(chunks[..|chunks| - 1], i);
    }
  }

  /** What is passed on live is a prefix of the answer, and all of it when no tool call came. */
  lemma {:induction false} LiveTextIsPrefix(chunks: seq<Chunk>)
    ensures ContentBeforeTools(chunks) <= Content(chunks)
    ensures Fragments(chunks) == [] ==> ContentBeforeTools(chunks) == Content(chunks)
    decreases |chunks|
  {
    if chunks != [] { LiveTextIsPrefix(chunks[..|chunks| - 1]); }
  }

  /** The first chunk with a tool fragment ends the live text, its own content included. */
  lemma {:induction false} LiveTextEnds(chunks: seq<Chunk>, i: nat)
    requires i < |chunks| && Fragments(chunks[..i]) == [] && ToolsIn(chunks[i]) != []
    ensures ContentBeforeTools(chunks) == Content(chunks[..i])
    decreases |chunks|
  {
    hide *;
    var front := chunks[..|chunks| - 1];
    FragmentsStay(chunks, i);
    LiveTextStays(chunks);
    assert front[..i] == chunks[..i];
    if i < |front| {
      LiveTextEnds(front, i);
    } else {
      assert front == chunks[..i];
      LiveTextIsPrefix(front);
    }
  }

  lemma LiveTextStays(chunks: seq<Chunk>)
    requires Fragments(chunks) != []
    ensures chunks != [] && ContentBeforeTools(chunks) == ContentBeforeTools(chunks[..|chunks| - 1])
  {
    hide Content;
  }

  lemma {:induction false} FragmentsStay(chunks: seq<Chunk>, i: nat)
    requires i < |chunks| && ToolsIn(chunks[i]) != []
    ensures Fragments(chunks) != []
    decreases |chunks|
  {
    if i < |chunks| - 1 {
      FragmentsStay(chunks[..|chunks| - 1], i);
    }
  }

  /** The chunks before the cancel flag is seen, which goes up before the chunk with number cancelAt. */
  function Seen(chunks: seq<Chunk>, cancelAt: nat): seq<Chunk> {
    if cancelAt < |chunks| then chunks[..cancelAt] else chunks
  }

  /** What a stream comes to: the parts of the chunks seen; a stream cut short without a reason was cancelled. */
  ghost function Assembled(chunks: seq<Chunk>, cancelAt: nat): TurnResult {
    var seen := Seen(chunks, cancelAt);
    var reason :=
      if Finish(seen) != "" then Some(Finish(seen)) else if cancelAt < |chunks| then Some("cancelled") else None;
    TurnResult(Content(seen), Calls(Fragments(seen)), reason, LastUsage(seen))
  }

  /** A dictionary being filled by the pieces of one chunk. */
  method Collect(acc: map<int, Rec>, tools: seq<Fragment>, ghost before: seq<Fragment>) returns (after: map<int, Rec>)
    requires acc == Table(before)
    ensures after == Table(before + tools)
  {
    after := acc;
    var i := 0;
    assert before + tools[..0] == before;
    while i < |tools|
      invariant 0 <= i <= |tools| && after == Table(before + tools[..i])
    {
      var tc := tools[i];
      var rec := if tc.index in after then after[tc.index] else EMPTY_REC;
      if tc.id != "" { rec := rec.(id := tc.id); }
      if tc.fn.Some? {
        rec := rec.(name := rec.name + tc.fn.value.name, arguments := rec.arguments + tc.fn.value.arguments);
      }
      after := after[tc.index := rec];
      TableSnoc(before + tools[..i], tc);
      assert before + tools[..i + 1] == before + tools[..i] + [tc];
      i := i + 1;
    }
    assert tools[..i] == tools;
  }

  lemma TableSnoc(fs: seq<Fragment>, f: Fragment)
    ensures Table(fs + [f]) == Accumulated(Table(fs), f)
  {
    assert (fs + [f])[..|fs|] == fs;
  }

  lemma LeastInside(s: set<int>)
    ensures forall m :: IsLeast(m, s) ==> m in s
  {}

  lemma LeastIsHead(left: set<int>, idx: int, acc: map<int, Rec>)
    requires left <= acc.Keys && IsLeast(idx, left)
    ensures CallsIn(Ascending(left), acc) == [CallOf(idx, acc[idx])] + CallsIn(Ascending(left - {idx}), acc)
  {
    assert idx == Least(left);
    assert Ascending(left)[1..] == Ascending(left - {idx});
  }

  /** sorted over the items of the dictionary. */
  method SortedCalls(acc: map<int, Rec>) returns (calls: seq<ToolCall>)
    ensures calls == CallsIn(Ascending(acc.Keys), acc)
  {
    hide Ascending, CallsIn, CallOf, IsLeast;
    calls := [];
    var left := acc.Keys;
    while left != {}
      invariant left <= acc.Keys
      invariant calls + CallsIn(Ascending(left), acc) == CallsIn(Ascending(acc.Keys), acc)
      decreases |left|
    {
      HasLeast(left);
      assert forall m :: IsLeast(m, left) ==> m in left by { LeastInside(left); }
      var idx :| idx in left && IsLeast(idx, left);
      LeastIsHead(left, idx, acc);
      ghost var before := calls;
      calls := calls + [CallOf(idx, acc[idx])];
      left := left - {idx};
      assert calls + CallsIn(Ascending(left), acc)
          == before + ([CallOf(idx, acc[idx])] + CallsIn(Ascending(left), acc));
    }
    NoCalls(acc, left);
  }

  lemma NoCalls(acc: map<int, Rec>, left: set<int>)
    requires left == {}
    ensures CallsIn(Ascending(left), acc) == []
  {}

  lemma CallsIs(fs: seq<Fragment>)
    ensures Calls(fs) == CallsIn(Ascending(Table(fs).Keys), Table(fs))
  {}

  lemma NoCallsNoFragments(fs: seq<Fragment>)
    ensures Calls(fs) == [] <==> fs == []
  {
    if fs == [] {
      assert Table(fs).Keys == {};
    } else {
      var index := fs[|fs| - 1].index;
      assert index in Table(fs).Keys;
      assert index in Ascending(Table(fs).Keys);
      CallAt(Ascending(Table(fs).Keys), Table(fs), 0);
    }
  }

  /** What one more chunk adds. */
  lemma OneMoreChunk(chunks: seq<Chunk>, i: nat)
    requires i < |chunks|
    ensures Fragments(chunks[..i + 1]) == Fragments(chunks[..i]) + ToolsIn(chunks[i])
    ensures Content(chunks[..i + 1]) == Content(chunks[..i]) + TextIn(chunks[i])
    ensures ToolsIn(chunks[i]) == [] ==> Fragments(chunks[..i + 1]) == Fragments(chunks[..i])
    ensures TextIn(chunks[i]) == "" ==>
              && Content(chunks[..i + 1]) == Content(chunks[..i])
              && ContentBeforeTools(chunks[..i + 1]) == ContentBeforeTools(chunks[..i])
    ensures Thought(chunks[..i + 1]) == Thought(chunks[..i]) + ThoughtIn(chunks[i])
    ensures ThoughtIn(chunks[i]) == "" ==> Thought(chunks[..i + 1]) == Thought(chunks[..i])
    ensures ContentBeforeTools(chunks[..i + 1]) ==
            ContentBeforeTools(chunks[..i]) + if Fragments(chunks[..i + 1]) == [] then TextIn(chunks[i]) else ""
    ensures chunks[i].choice.Some? ==>
              && ToolsIn(chunks[i]) == chunks[i].choice.value.1.tools
              && TextIn(chunks[i]) == chunks[i].choice.value.1.content
              && ThoughtIn(chunks[i]) == chunks[i].choice.value.1.reasoning
    ensures chunks[i].choice.None? ==> ToolsIn(chunks[i]) == [] && TextIn(chunks[i]) == ThoughtIn(chunks[i]) == ""
    ensures LastUsage(chunks[..i + 1]) == if chunks[i].usage.Some? then chunks[i].usage else LastUsage(chunks[..i])
    ensures Finish(chunks[..i + 1]) ==
            if chunks[i].choice.Some? && chunks[i].choice.value.0 != "" then chunks[i].choice.value.0
            else Finish(chunks[..i])
  {
    assert chunks[..i + 1][..i] == chunks[..i];
    assert Fragments(chunks[..i]) + [] == Fragments(chunks[..i]);
    assert Content(chunks[..i]) + "" == Content(chunks[..i]);
    assert Thought(chunks[..i]) + "" == Thought(chunks[..i]);
    assert ContentBeforeTools(chunks[..i]) + "" == ContentBeforeTools(chunks[..i]);
    LiveTextIsPrefix(chunks[..i]);
  }

  lemma NoChunks(chunks: seq<Chunk>)
    ensures Fragments(chunks[..0]) == [] && Content(chunks[..0]) == "" && ContentBeforeTools(chunks[..0]) == ""
    ensures Thought(chunks[..0]) == "" && LastUsage(chunks[..0]) == None && Finish(chunks[..0]) == ""
    ensures Table([]) == map[]
  {}

  /** The chunk loop: the flag is up from the chunk with number cancelAt on. What it passes on live is returned
      with the answer. */
  method Complete(chunks: seq<Chunk>, cancelAt: nat)
      returns (result: TurnResult, spoken: seq<string>, thought: seq<string>)
    ensures result == Assembled(chunks, cancelAt)
    ensures Concat(spoken) == ContentBeforeTools(Seen(chunks, cancelAt))
    ensures Concat(thought) == Thought(Seen(chunks, cancelAt))
    ensures Concat(spoken) <= result.content
    ensures result.toolCalls == [] ==> Concat(spoken) == result.content
  {
    hide Content, ContentBeforeTools, Fragments, Finish, LastUsage, Table, Concat, Calls, Thought, ToolsIn, TextIn,
        ThoughtIn;
    var parts: seq<string>, acc: map<int, Rec>, finish, sawTools, usage := [], map[], "", false, None;
    spoken, thought := [], [];
    assert Concat([]) == "" by { ConcatNothing(); }
    NoChunks(chunks);
    var i := 0;
    while i < |chunks| && i < cancelAt
      invariant 0 <= i <= |chunks| && i <= cancelAt
      invariant Concat(parts) == Content(chunks[..i]) && acc == Table(Fragments(chunks[..i]))
      invariant finish == Finish(chunks[..i]) && usage == LastUsage(chunks[..i])
      invariant sawTools <==> Fragments(chunks[..i]) != []
      invariant Concat(spoken) == ContentBeforeTools(chunks[..i]) && Concat(thought) == Thought(chunks[..i])
    {
      var chunk := chunks[i];
      OneMoreChunk(chunks, i);
      if chunk.usage.Some? { usage := chunk.usage; }
      if chunk.choice.Some? {
        var (reason, delta) := chunk.choice.value;
        if reason != "" { finish := reason; }
        if delta.tools != [] {
          sawTools := true;
          acc := Collect(acc, delta.tools, Fragments(chunks[..i]));
        }
        parts, spoken := Said(parts, spoken, delta.content, sawTools);
        if delta.reasoning != "" {
          ConcatSnoc(thought, delta.reasoning);
          thought := thought + [delta.reasoning];
        }
      }
      i := i + 1;
    }
    if i < |chunks| && finish == "" { finish := "cancelled"; }
    assert chunks[..|chunks|] == chunks;
    var calls := SortedCalls(acc);
    assert calls == Calls(Fragments(chunks[..i])) by { CallsIs(Fragments(chunks[..i])); }
    result := TurnResult(Concat(parts), calls, if finish == "" then None else Some(finish), usage);
    LiveTextIsPrefix(chunks[..i]);
    NoCallsNoFragments(Fragments(chunks[..i]));
  }

  method Said(parts: seq<string>, spoken: seq<string>, content: string, sawTools: bool)
    returns (parts': seq<string>, spoken': seq<string>)
    ensures Concat(parts') == Concat(parts) + content
    ensures Concat(spoken') == Concat(spoken) + if sawTools then "" else content
  {
    parts', spoken' := parts, spoken;
    if content != "" {
      ConcatSnoc(parts, content);
      parts' := parts + [content];
      if !sawTools {
        ConcatSnoc(spoken, content);
        spoken' := spoken + [content];
      }
    }
  }

  lemma ConcatNothing()
    ensures Concat([]) == ""
  {}
}
