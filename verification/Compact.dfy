/** The context window of context/compact.py: splitting a message list into blocks that must not
    be cut, planning which blocks to drop, and rewriting the list in place. */
module Compact {
  import opened Common
  import opened Messages
  import opened Session

  type Block = seq<Message>

  const SUMMARY_RESERVE: nat := 1600

  function Flatten(blocks: seq<Block>): seq<Message> {
    if blocks == [] then [] else blocks[0] + Flatten(blocks[1..])
  }

  lemma FlattenCons(block: Block, rest: seq<Block>)
    ensures Flatten([block] + rest) == block + Flatten(rest)
  {
    assert ([block] + rest)[1..] == rest;
  }

  lemma {:induction false} FlattenAppend(a: seq<Block>, b: seq<Block>)
    ensures Flatten(a + b) == Flatten(a) + Flatten(b)
  {
    if a == [] {
      assert a + b == b;
    } else {
      assert (a + b)[1..] == a[1..] + b;
      FlattenAppend(a[1..], b);
    }
  }

  // Splitting

  function SystemPrefix(ms: seq<Message>): (n: nat)
    ensures n <= |ms|
    ensures forall i :: 0 <= i < n ==> ms[i].System?
    ensures n < |ms| ==> !ms[n].System?
  {
    if ms == [] || !ms[0].System? then 0 else 1 + SystemPrefix(ms[1..])
  }

  function ToolRun(ms: seq<Message>): (n: nat)
    ensures n <= |ms|
    ensures forall i :: 0 <= i < n ==> ms[i].Tool?
    ensures n < |ms| ==> !ms[n].Tool?
  {
    if ms == [] || !ms[0].Tool? then 0 else 1 + ToolRun(ms[1..])
  }

  /** Length of the block that starts a nonempty list. */
  function BlockLength(ms: seq<Message>): (n: nat)
    requires ms != []
    ensures 1 <= n <= |ms|
  {
    if IsGroupHead(ms[0]) then 1 + ToolRun(ms[1..])
    else if |ms| > 1 && IsContinuationPair(ms[0], ms[1]) then 2
    else 1
  }

  function Blocks(ms: seq<Message>): seq<Block>
    decreases |ms|
  {
    if ms == [] then [] else [ms[..BlockLength(ms)]] + Blocks(ms[BlockLength(ms)..])
  }

  lemma SliceSnoc(ms: seq<Message>, i: nat, j: nat)
    requires i <= j < |ms|
    ensures ms[i..j] + [ms[j]] == ms[i..j + 1]
  {}

  lemma ToolRunStep(ms: seq<Message>, i: nat)
    requires i < |ms| && ms[i].Tool?
    ensures ToolRun(ms[i..]) == 1 + ToolRun(ms[i + 1..])
  {
    assert ms[i..][1..] == ms[i + 1..];
  }

  /** The inner loop of the scan: an assistant message with tool calls and all tool messages right after it. */
  method TakeGroup(messages: seq<Message>, first: nat) returns (group: Block, next: nat)
    requires first < |messages| && IsGroupHead(messages[first])
    ensures first < next <= |messages| && group == messages[first..next]
    ensures next == first + BlockLength(messages[first..])
    ensures next < |messages| ==> !messages[next].Tool?
  {
    BlockLengthAt(messages, first);
    hide BlockLength, IsGroupHead, ToolRun;
    group := [messages[first]];
    next := first + 1;
    while next < |messages| && messages[next].Tool?
      invariant first < next <= |messages| && group == messages[first..next]
      invariant BlockLength(messages[first..]) == next - first + ToolRun(messages[next..])
    {
      ToolRunStep(messages, next);
      SliceSnoc(messages, first, next);
      group := group + [messages[next]];
      next := next + 1;
    }
  }

  method TakeSystem(messages: seq<Message>) returns (system: seq<Message>, i: nat)
    ensures i == SystemPrefix(messages) && system == messages[..i]
  {
    i := 0;
    system := [];
    while i < |messages| && messages[i].System?
      invariant i <= |messages| && system == messages[..i]
      invariant SystemPrefix(messages) == i + SystemPrefix(messages[i..])
    {
      assert messages[i..][1..] == messages[i + 1..];
      system := system + [messages[i]];
      i := i + 1;
    }
  }

  /** The scan of the source. Its branch that appends a tool message to the previous group is never
      taken, because the group's own loop has already taken every tool message that follows. */
  method SplitPairBlocks(messages: seq<Message>) returns (system: seq<Message>, blocks: seq<Block>)
    ensures system == messages[..SystemPrefix(messages)]
    ensures blocks == Blocks(messages[SystemPrefix(messages)..])
  {
    hide BlockLength, IsGroupHead, IsContinuationPair, ToolRun;
    var i;
    system, i := TakeSystem(messages);
    hide SystemPrefix;
    ghost var body := messages[i..];
    blocks := [];
    while i < |messages|
      invariant i <= |messages|
      invariant blocks + Blocks(messages[i..]) == Blocks(body)
      invariant blocks != [] ==> blocks[|blocks| - 1] != []
      invariant i < |messages| && messages[i].Tool? && blocks != [] ==> !IsGroupHead(blocks[|blocks| - 1][0])
    {
      var msg := messages[i];
      var group, next := [msg], i + 1;
      BlockLengthAt(messages, i);
      if IsGroupHead(msg) {
        group, next := TakeGroup(messages, i);
        assert group == messages[i..next];
      } else if i + 1 < |messages| && IsContinuationPair(msg, messages[i + 1]) {
        group, next := [msg, messages[i + 1]], i + 2;
        assert group == messages[i..next];
      } else if msg.Tool? && blocks != [] && IsGroupHead(blocks[|blocks| - 1][0]) {
        assert false;
      }
      assert next == i + 1 ==> group == messages[i..next];
      ScanStep(blocks, messages, i, next, body);
      blocks := blocks + [group];
      i := next;
    }
  }

  lemma BlockStep(ms: seq<Message>, i: nat)
    requires i < |ms|
    ensures
      var n := BlockLength(ms[i..]);
      i + n <= |ms| && Blocks(ms[i..]) == [ms[i..i + n]] + Blocks(ms[i + n..])
  {
    hide BlockLength;
    var here := ms[i..];
    var n := BlockLength(here);
    assert here[..n] == ms[i..i + n];
    assert here[n..] == ms[i + n..];
  }

  lemma BlockLengthAt(ms: seq<Message>, i: nat)
    requires i < |ms|
    ensures BlockLength(ms[i..])
         == if IsGroupHead(ms[i]) then 1 + ToolRun(ms[i + 1..])
            else if i + 1 < |ms| && IsContinuationPair(ms[i], ms[i + 1]) then 2
            else 1
  {
    hide IsGroupHead, IsContinuationPair, ToolRun;
    assert ms[i..][1..] == ms[i + 1..];
  }

  /** One more block, ending at j, has been scanned. */
  lemma ScanStep(blocks: seq<Block>, ms: seq<Message>, i: nat, j: nat, body: seq<Message>)
    requires i < j <= |ms| && j == i + BlockLength(ms[i..])
    requires blocks + Blocks(ms[i..]) == Blocks(body)
    ensures (blocks + [ms[i..j]]) + Blocks(ms[j..]) == Blocks(body)
  {
    hide BlockLength;
    BlockStep(ms, i);
    hide Blocks;
    assert blocks + ([ms[i..j]] + Blocks(ms[j..])) == (blocks + [ms[i..j]]) + Blocks(ms[j..]);
  }

  lemma {:induction false} BlocksFlatten(ms: seq<Message>)
    ensures Flatten(Blocks(ms)) == ms
    decreases |ms|
  {
    if ms != [] {
      hide BlockLength, Flatten;
      var n := BlockLength(ms);
      BlocksFlatten(ms[n..]);
      FlattenCons(ms[..n], Blocks(ms[n..]));
    }
  }

  /** Position p of ms separates neither a continuation pair nor a tool result from its group. */
  ghost predicate SafeCut(ms: seq<Message>, p: nat)
    requires p <= |ms|
  {
    && (0 < p < |ms| ==> !IsContinuationPair(ms[p - 1], ms[p]))
    && (p < |ms| ==> forall h :: 0 <= h < p && IsGroupHead(ms[h]) ==> exists j :: h < j <= p && !ms[j].Tool?)
  }

  /** A safe cut of what follows the first block is a safe cut of the whole list. */
  lemma CutAfterFirstBlock(ms: seq<Message>, q: nat)
    requires ms != [] && q <= |ms| - BlockLength(ms) && SafeCut(ms[BlockLength(ms)..], q)
    ensures SafeCut(ms, BlockLength(ms) + q)
  {
    hide CONTINUATION_PROMPT;
    var n := BlockLength(ms);
    var p := n + q;
    if p < |ms| {
      assert q > 0 ==> ms[n..][q - 1] == ms[p - 1];
      assert ms[n..][q] == ms[p];
      forall h | 0 <= h < p && IsGroupHead(ms[h]) ensures exists j :: h < j <= p && !ms[j].Tool? {
        if h < n {
          assert h == 0 && !ms[n].Tool?;
        } else {
          assert ms[n..][h - n] == ms[h];
          var j :| h - n < j <= q && !ms[n..][j].Tool?;
          assert !ms[n + j].Tool?;
        }
      }
    }
  }

  /** Every boundary between blocks is a safe cut. */
  lemma {:induction false} NoBlockCutsAPair(ms: seq<Message>, k: nat)
    requires k <= |Blocks(ms)|
    ensures Boundary(ms, k) <= |ms| && SafeCut(ms, Boundary(ms, k))
    decreases |ms|
  {
    hide *;
    if k == 0 {
      CutAtStart(ms);
    } else {
      FirstBlocks(ms, k);
      NoBlockCutsAPair(ms[BlockLength(ms)..], k - 1);
      CutAfterFirstBlock(ms, Boundary(ms[BlockLength(ms)..], k - 1));
    }
  }

  /** A tool call with tool messages, a continuation pair, or one message. */
  predicate IsUnit(block: Block) {
    || |block| == 1
    || (|block| == 2 && IsContinuationPair(block[0], block[1]))
    || (|block| > 1 && IsGroupHead(block[0]) && forall i :: 0 < i < |block| ==> block[i].Tool?)
  }

  lemma {:induction false} BlockShape(ms: seq<Message>, k: nat)
    requires k < |Blocks(ms)|
    ensures IsUnit(Blocks(ms)[k])
    decreases |ms|
  {
    hide CONTINUATION_PROMPT;
    if k > 0 {
      BlockShape(ms[BlockLength(ms)..], k - 1);
    }
  }

  /** Where the first k blocks end. */
  function Boundary(ms: seq<Message>, k: nat): nat
    requires k <= |Blocks(ms)|
  {
    |Flatten(Blocks(ms)[..k])|
  }

  lemma CutAtStart(ms: seq<Message>)
    ensures Boundary(ms, 0) == 0 && SafeCut(ms, 0)
  {}

  lemma FirstBlocks(ms: seq<Message>, k: nat)
    requires 0 < k <= |Blocks(ms)|
    ensures ms != [] && k - 1 <= |Blocks(ms[BlockLength(ms)..])|
    ensures Boundary(ms, k) == BlockLength(ms) + Boundary(ms[BlockLength(ms)..], k - 1)
  {
    hide BlockLength;
    var n := BlockLength(ms);
    var rest := Blocks(ms[n..])[..k - 1];
    assert Blocks(ms)[..k] == [ms[..n]] + rest;
    FlattenCons(ms[..n], rest);
  }

  /** A continuation pair at the end of a list is its last block, whole. */
  lemma {:induction false} TrailingPairIsLastBlock(ms: seq<Message>, pair: seq<Message>)
    requires |pair| == 2 && IsContinuationPair(pair[0], pair[1])
    ensures Blocks(ms + pair) != [] && Blocks(ms + pair)[|Blocks(ms + pair)| - 1] == pair
    decreases |ms|
  {
    hide IsContinuationPair, BlockLength;
    if ms == [] {
      assert ms + pair == pair;
      PairIsOneBlock(pair);
    } else {
      var n := BlockLength(ms + pair);
      FirstBlockBefore(ms, pair);
      TrailingPairIsLastBlock(ms[n..], pair);
    }
  }

  lemma PairIsOneBlock(pair: seq<Message>)
    requires |pair| == 2 && IsContinuationPair(pair[0], pair[1])
    ensures Blocks(pair) == [pair]
  {
    hide CONTINUATION_PROMPT;
    assert BlockLength(pair) == 2 && pair[..2] == pair && pair[2..] == [];
  }

  /** The first block of a list does not reach into a continuation pair at its end. */
  lemma FirstBlockBefore(ms: seq<Message>, pair: seq<Message>)
    requires ms != [] && |pair| == 2 && IsContinuationPair(pair[0], pair[1])
    ensures BlockLength(ms + pair) <= |ms|
    ensures (ms + pair)[BlockLength(ms + pair)..] == ms[BlockLength(ms + pair)..] + pair
  {
    hide CONTINUATION_PROMPT;
    var all := ms + pair;
    TrailingToolRun(ms[1..], pair);
    assert all[1..] == ms[1..] + pair && all[0] == ms[0];
    assert |ms| == 1 ==> all[1] == pair[0];
    hide ToolRun;
    var n := BlockLength(all);
    assert n <= |ms|;
    hide BlockLength, IsContinuationPair, IsGroupHead;
    assert all[n..] == ms[n..] + pair;
  }

  lemma {:induction false} TrailingToolRun(ms: seq<Message>, tail: seq<Message>)
    requires tail != [] && !tail[0].Tool?
    ensures ToolRun(ms + tail) <= |ms|
  {
    if ms == [] {
      assert ms + tail == tail;
    } else {
      assert (ms + tail)[1..] == ms[1..] + tail;
      TrailingToolRun(ms[1..], tail);
    }
  }

  /** Splitting again what is left after dropping leading blocks finds the same blocks. */
  lemma {:induction false} BlocksOfSuffix(ms: seq<Message>, k: nat)
    requires k <= |Blocks(ms)|
    ensures Blocks(Flatten(Blocks(ms)[k..])) == Blocks(ms)[k..]
    decreases |ms|
  {
    if k == 0 {
      BlocksFlatten(ms);
    } else {
      SuffixAfterFirst(ms, k);
      BlocksOfSuffix(ms[BlockLength(ms)..], k - 1);
    }
  }

  lemma SuffixAfterFirst(ms: seq<Message>, k: nat)
    requires 0 < k <= |Blocks(ms)|
    ensures ms != [] && k - 1 <= |Blocks(ms[BlockLength(ms)..])|
    ensures Blocks(ms)[k..] == Blocks(ms[BlockLength(ms)..])[k - 1..]
  {}

  lemma {:induction false} SuffixWellPaired(ms: seq<Message>, k: nat)
    requires WellPaired(ms) && k <= |Blocks(ms)|
    ensures WellPaired(Flatten(Blocks(ms)[k..]))
    decreases |ms|
  {
    if k == 0 {
      BlocksFlatten(ms);
    } else {
      hide WellPaired, BlockLength, Flatten;
      AfterBlockWellPaired(ms);
      SuffixAfterFirst(ms, k);
      hide Blocks;
      SuffixWellPaired(ms[BlockLength(ms)..], k - 1);
    }
  }

  lemma AfterBlockWellPaired(ms: seq<Message>)
    requires WellPaired(ms) && ms != []
    ensures WellPaired(ms[BlockLength(ms)..])
  {
    if IsGroupHead(ms[0]) {
      var calls := ms[0].calls;
      var rest := ms[1..];
      ToolRunOfAnswers(rest, |calls|);
      assert ms[1 + |calls|..] == rest[|calls|..];
    } else if BlockLength(ms) == 2 {
      assert ms[1..][1..] == ms[2..];
    }
  }

  lemma {:induction false} ToolRunOfAnswers(ms: seq<Message>, n: nat)
    requires n <= |ms| && (forall i :: 0 <= i < n ==> ms[i].Tool?) && (n < |ms| ==> !ms[n].Tool?)
    ensures ToolRun(ms) == n
  {
    if n > 0 {
      ToolRunOfAnswers(ms[1..], n - 1);
    }
  }

  lemma {:induction false} AfterSystemWellPaired(ms: seq<Message>, n: nat)
    requires WellPaired(ms) && n <= SystemPrefix(ms)
    ensures WellPaired(ms[..n]) && WellPaired(ms[n..])
  {
    if n == 0 {
      assert ms[0..] == ms;
    } else {
      AfterSystemWellPaired(ms[1..], n - 1);
      assert ms[1..][n - 1..] == ms[n..] && ms[1..][..n - 1] == ms[..n][1..];
    }
  }

  // Planning

  function Cost(blocks: seq<Block>): nat {
    WindowTokens(Flatten(blocks))
  }

  lemma CostCons(block: Block, rest: seq<Block>)
    ensures Cost([block] + rest) == WindowTokens(block) + Cost(rest)
  {
    FlattenCons(block, rest);
    WindowTokensAppend(block, Flatten(rest));
  }

  lemma {:induction false} CostAppend(a: seq<Block>, b: seq<Block>)
    ensures Cost(a + b) == Cost(a) + Cost(b)
  {
    FlattenAppend(a, b);
    WindowTokensAppend(Flatten(a), Flatten(b));
  }

  datatype Plan = Plan(dropped: seq<Block>, kept: seq<Block>)

  /** The system messages, the room for a summary and these blocks are within budget. */
  predicate Fits(system: seq<Message>, reserve: nat, blocks: seq<Block>, budget: int) {
    WindowTokens(system) + reserve + Cost(blocks) <= budget
  }

  /** p drops and keeps a partition of the blocks; what it keeps is the longest suffix that fits, or the last block. */
  ghost predicate IsPlan(p: Plan, system: seq<Message>, blocks: seq<Block>, budget: int, reserve: nat) {
    && p.dropped + p.kept == blocks
    && p.dropped != [] && p.kept != []
    && (|p.kept| == 1 || Fits(system, reserve, p.kept, budget))
    && forall k :: 0 <= k < |p.dropped| ==> !Fits(system, reserve, blocks[k..], budget)
  }

  predicate WithinBudget(system: seq<Message>, blocks: seq<Block>, budget: int) {
    WindowTokens(system) + Cost(blocks) <= budget
  }

  method PlanCompact(system: seq<Message>, blocks: seq<Block>, budget: int, reserve: nat) returns (plan: Option<Plan>)
    ensures plan.Some? <==> !WithinBudget(system, blocks, budget) && |blocks| >= 2
    ensures plan.Some? ==> IsPlan(plan.value, system, blocks, budget, reserve)
  {
    hide Cost, WindowTokens, Fits, IsPlan;
    var sysTok := WindowTokens(system);
    if sysTok + Cost(blocks) <= budget {
      return None;
    }
    var i := |blocks|;
    var kept: seq<Block> := [];
    var used := sysTok + reserve;
    assert blocks[i..] == [];
    assert Cost([]) == 0 by { CostNil(); }
    while i > 0
      invariant 0 <= i <= |blocks| && kept == blocks[i..]
      invariant used == sysTok + reserve + Cost(kept)
      invariant |kept| <= 1 || used <= budget
    {
      var cost := WindowTokens(blocks[i - 1]);
      CostCons(blocks[i - 1], kept);
      assert [blocks[i - 1]] + kept == blocks[i - 1..];
      if kept != [] && used + cost > budget {
        break;
      }
      kept := [blocks[i - 1]] + kept;
      used := used + cost;
      i := i - 1;
    }
    var drop := |blocks| - |kept|;
    if drop <= 0 {
      return None;
    }
    SuffixIsPlan(system, blocks, budget, reserve, drop);
    return Some(Plan(blocks[..drop], kept));
  }

  lemma CostNil()
    ensures Cost([]) == 0
  {
  }

  lemma SuffixIsPlan(system: seq<Message>, blocks: seq<Block>, budget: int, reserve: nat, drop: nat)
    requires 0 < drop < |blocks|
    requires drop == |blocks| - 1 || WindowTokens(system) + reserve + Cost(blocks[drop..]) <= budget
    requires WindowTokens(system) + reserve + Cost(blocks[drop - 1..]) > budget
    ensures IsPlan(Plan(blocks[..drop], blocks[drop..]), system, blocks, budget, reserve)
  {
    hide Cost, WindowTokens;
    forall k | 0 <= k < drop ensures !Fits(system, reserve, blocks[k..], budget) {
      assert blocks[k..] == blocks[k..drop - 1] + blocks[drop - 1..];
      CostAppend(blocks[k..drop - 1], blocks[drop - 1..]);
    }
    assert blocks[..drop] + blocks[drop..] == blocks;
  }

  /** There is one such plan at most. */
  lemma PlanIsUnique(p: Plan, q: Plan, system: seq<Message>, blocks: seq<Block>, budget: int, reserve: nat)
    requires IsPlan(p, system, blocks, budget, reserve) && IsPlan(q, system, blocks, budget, reserve)
    ensures p == q
  {
    assert p.dropped == blocks[..|p.dropped|] && p.kept == blocks[|p.dropped|..];
    assert q.dropped == blocks[..|q.dropped|] && q.kept == blocks[|q.dropped|..];
  }

  // The rewritten window

  function SummaryMessage(summary: string): Message {
    User("<summary>\n" + summary + "\n</summary>")
  }

  function Rewritten(system: seq<Message>, summary: string, kept: seq<Block>): seq<Message> {
    system + [SummaryMessage(summary)] + Flatten(kept)
  }

  /** Splitting the rewritten window gives back the system messages and, after the summary, the kept blocks. */
  lemma RewrittenSplits(ms: seq<Message>, k: nat, summary: string)
    requires k <= |Blocks(ms[SystemPrefix(ms)..])|
    ensures
      var kept := Blocks(ms[SystemPrefix(ms)..])[k..];
      var out := Rewritten(ms[..SystemPrefix(ms)], summary, kept);
      && SystemPrefix(out) == SystemPrefix(ms)
      && Blocks(out[SystemPrefix(out)..]) == [[SummaryMessage(summary)]] + kept
  {
    hide Blocks, Flatten;
    var n := SystemPrefix(ms);
    var kept := Blocks(ms[n..])[k..];
    var out := Rewritten(ms[..n], summary, kept);
    SystemPrefixExact(out, n);
    BlocksOfSuffix(ms[n..], k);
    assert out[n..] == [SummaryMessage(summary)] + Flatten(kept);
    SummaryIsOneBlock(summary, Flatten(kept));
  }

  lemma SummaryIsOneBlock(summary: string, ms: seq<Message>)
    ensures Blocks([SummaryMessage(summary)] + ms) == [[SummaryMessage(summary)]] + Blocks(ms)
  {
    var all := [SummaryMessage(summary)] + ms;
    assert BlockLength(all) == 1;
    assert all[1..] == ms;
    assert all[..1] == [SummaryMessage(summary)];
  }

  lemma {:induction false} SystemPrefixExact(ms: seq<Message>, n: nat)
    requires n <= |ms| && (forall i :: 0 <= i < n ==> ms[i].System?) && (n < |ms| ==> !ms[n].System?)
    ensures SystemPrefix(ms) == n
  {
    if n > 0 {
      SystemPrefixExact(ms[1..], n - 1);
    }
  }

  lemma RewrittenWellPaired(ms: seq<Message>, k: nat, summary: string)
    requires WellPaired(ms) && k <= |Blocks(ms[SystemPrefix(ms)..])|
    ensures WellPaired(Rewritten(ms[..SystemPrefix(ms)], summary, Blocks(ms[SystemPrefix(ms)..])[k..]))
  {
    var n := SystemPrefix(ms);
    AfterSystemWellPaired(ms, n);
    SuffixWellPaired(ms[n..], k);
    var kept := Flatten(Blocks(ms[n..])[k..]);
    assert WellPaired([SummaryMessage(summary)]);
    WellPairedAppend(ms[..n], [SummaryMessage(summary)]);
    WellPairedAppend(ms[..n] + [SummaryMessage(summary)], kept);
  }

  /** A compaction whose summary stays within the reserve, and whose last block fits, ends within budget:
      a second call leaves the window alone. */
  lemma CompactionReachesBudget(ms: seq<Message>, p: Plan, summary: string, budget: int)
    requires
      var n := SystemPrefix(ms);
      var blocks := Blocks(ms[n..]);
      && IsPlan(p, ms[..n], blocks, budget, SUMMARY_RESERVE)
      && Fits(ms[..n], SUMMARY_RESERVE, blocks[|blocks| - 1..], budget)
    requires MessageTokens(SummaryMessage(summary)) <= SUMMARY_RESERVE
    ensures
      var out := Rewritten(ms[..SystemPrefix(ms)], summary, p.kept);
      && WindowTokens(out) <= budget
      && WithinBudget(out[..SystemPrefix(out)], Blocks(out[SystemPrefix(out)..]), budget)
  {
    hide Blocks, SystemPrefix, WindowTokens, MessageTokens, Flatten;
    var n := SystemPrefix(ms);
    var out := Rewritten(ms[..n], summary, p.kept);
    assert p.kept == Blocks(ms[n..])[|p.dropped|..];
    RewrittenTokens(ms[..n], summary, p.kept);
    RewrittenSplits(ms, |p.dropped|, summary);
    BlocksFlatten(out[n..]);
    assert out == out[..n] + out[n..];
    WindowTokensAppend(out[..n], out[n..]);
  }

  lemma RewrittenTokens(system: seq<Message>, summary: string, kept: seq<Block>)
    ensures WindowTokens(Rewritten(system, summary, kept))
         == WindowTokens(system) + MessageTokens(SummaryMessage(summary)) + Cost(kept)
  {
    var s := [SummaryMessage(summary)];
    assert WindowTokens(s) == MessageTokens(s[0]) + WindowTokens(s[1..]);
    hide MessageTokens, WindowTokens, SummaryMessage;
    WindowTokensAppend(system, s);
    WindowTokensAppend(system + s, Flatten(kept));
  }

  /** What one call of the packer does to the list, given what its summarizer would answer. */
  ghost predicate Packed(before: seq<Message>, after: seq<Message>, budget: int, summary: Option<string>) {
    var n := SystemPrefix(before);
    var blocks := Blocks(before[n..]);
    if WithinBudget(before[..n], blocks, budget) || |blocks| < 2 || summary.None? then after == before
    else
      exists p: Plan ::
        && IsPlan(p, before[..n], blocks, budget, SUMMARY_RESERVE)
        && after == Rewritten(before[..n], summary.value, p.kept)
  }

  /** The one event of a compaction: every message was dropped or kept, and one summary was added. */
  ghost predicate CompactionLogged(dropped: nat, before: seq<Message>, after: seq<Message>, log: seq<Event>,
      log': seq<Event>) {
    && log' == log + [ContextCompacted(dropped, |after|, WindowTokens(before), WindowTokens(after))]
    && dropped + |after| == |before| + 1
  }

  lemma CompactionCounts(ms: seq<Message>, p: Plan, summary: string)
    requires p.dropped + p.kept == Blocks(ms[SystemPrefix(ms)..])
    ensures |Flatten(p.dropped)| + |Rewritten(ms[..SystemPrefix(ms)], summary, p.kept)| == |ms| + 1
  {
    BlocksFlatten(ms[SystemPrefix(ms)..]);
    FlattenAppend(p.dropped, p.kept);
  }

  lemma PackedKeepsPairing(before: seq<Message>, after: seq<Message>, budget: int, summary: Option<string>)
    requires Packed(before, after, budget, summary) && WellPaired(before)
    ensures WellPaired(after)
  {
    if after != before {
      var n := SystemPrefix(before);
      var blocks := Blocks(before[n..]);
      var p: Plan :| IsPlan(p, before[..n], blocks, budget, SUMMARY_RESERVE)
          && after == Rewritten(before[..n], summary.value, p.kept);
      assert p.kept == blocks[|p.dropped|..];
      RewrittenWellPaired(before, |p.dropped|, summary.value);
    }
  }

  /** A trailing continuation pair survives every compaction whole, still at the end. */
  lemma PackedKeepsTrailingPair(ms: seq<Message>, pair: seq<Message>, after: seq<Message>, budget: int,
      summary: Option<string>)
    requires |pair| == 2 && IsContinuationPair(pair[0], pair[1])
    requires Packed(ms + pair, after, budget, summary)
    ensures |after| >= 2 && after[|after| - 2..] == pair
  {
    hide Blocks, SystemPrefix, Flatten, IsPlan, CONTINUATION_PROMPT;
    var before := ms + pair;
    if after != before {
      var n := SystemPrefix(before);
      PrefixBeforePair(ms, pair);
      assert before[n..] == ms[n..] + pair;
      TrailingPairIsLastBlock(ms[n..], pair);
      var p: Plan :| IsPlan(p, before[..n], Blocks(before[n..]), budget, SUMMARY_RESERVE)
          && after == Rewritten(before[..n], summary.value, p.kept);
      LastBlockKept(p, before[..n], Blocks(before[n..]), budget, SUMMARY_RESERVE);
    }
  }

  lemma LastBlockKept(p: Plan, system: seq<Message>, blocks: seq<Block>, budget: int, reserve: nat)
    requires IsPlan(p, system, blocks, budget, reserve)
    ensures
      var last := blocks[|blocks| - 1];
      |Flatten(p.kept)| >= |last| && Flatten(p.kept)[|Flatten(p.kept)| - |last|..] == last
  {
    hide Fits;
    var last := blocks[|blocks| - 1];
    var front := p.kept[..|p.kept| - 1];
    assert p.kept == front + [last];
    FlattenAppend(front, [last]);
    assert Flatten([last]) == last + Flatten([]);
  }

  lemma {:induction false} PrefixBeforePair(ms: seq<Message>, pair: seq<Message>)
    requires pair != [] && !pair[0].System?
    ensures SystemPrefix(ms + pair) <= |ms|
  {
    if ms == [] {
      assert ms + pair == pair;
    } else {
      assert (ms + pair)[1..] == ms[1..] + pair;
      PrefixBeforePair(ms[1..], pair);
    }
  }

  /** The window is over budget and has two blocks. */
  predicate NeedsPlan(ms: seq<Message>, budget: int) {
    var n := SystemPrefix(ms);
    !WithinBudget(ms[..n], Blocks(ms[n..]), budget) && |Blocks(ms[n..])| >= 2
  }

  /** summaries answers the packer's own model calls: None is a call that raises. */
  class ContextPacker {
    const budget: int
    const summaries: nat -> Option<string>
    var calls: nat

    constructor (budget: int, summaries: nat -> Option<string>)
      ensures this.budget == budget && this.summaries == summaries && calls == 0
    {
      this.budget := budget;
      this.summaries := summaries;
      calls := 0;
    }

    /** Returns a copy of an unchanged list, or the list itself, overwritten in place. */
    method Pack(messages: MessageList, session: RunSession) returns (window: MessageList)
      modifies this, messages, session
      ensures Packed(old(messages.items), messages.items, budget, summaries(old(calls)))
      ensures window.items == messages.items
      ensures window == messages || fresh(window)
      ensures messages.items != old(messages.items) ==> window == messages
      ensures calls == old(calls) + if NeedsPlan(old(messages.items), budget) then 1 else 0
      ensures
        || (session.events == old(session.events) && messages.items == old(messages.items))
        || (exists dropped: nat :: CompactionLogged(dropped, old(messages.items), messages.items, old(session.events),
            session.events))
    {
      var system, blocks := SplitPairBlocks(messages.items);
      var plan := PlanCompact(system, blocks, budget, SUMMARY_RESERVE);
      if plan.None? {
        window := new MessageList(messages.items);
        return;
      }
      var summary := summaries(calls);
      calls := calls + 1;
      session.Await();
      if summary.None? {
        window := new MessageList(messages.items);
        return;
      }
      var out := Rewritten(system, summary.value, plan.value.kept);
      CompactionCounts(messages.items, plan.value, summary.value);
      session.Emit(
        ContextCompacted(|Flatten(plan.value.dropped)|, |out|, WindowTokens(messages.items), WindowTokens(out)));
      messages.items := out;
      window := messages;
      assert CompactionLogged(|Flatten(plan.value.dropped)|, old(messages.items), messages.items, old(session.events),
          session.events);
    }
  }
}
