/** What the token counts of a window say about its texts. */
module WindowCost {
  import opened Common
  import opened TokenEstimate
  import opened Messages
  import opened Compact

  // One text

  function CjkCount(s: string): nat {
    if s == "" then 0 else (if IsCjk(s[0]) then 1 else 0) + CjkCount(s[1..])
  }

  lemma {:induction false} CjkCountAppend(a: string, b: string)
    ensures CjkCount(a + b) == CjkCount(a) + CjkCount(b)
  {
    if a == "" {
      assert a + b == b;
    } else {
      assert (a + b)[1..] == a[1..] + b;
      CjkCountAppend(a[1..], b);
    }
  }

  lemma {:induction false} NoCjk(s: string)
    requires forall i :: 0 <= i < |s| ==> !IsCjk(s[i])
    ensures CjkCount(s) == 0
  {
    if s != "" {
      NoCjk(s[1..]);
    }
  }

  /** A token stands for four characters at most, and for one CJK character at most. */
  lemma {:induction false} EstimateBounds(s: string)
    ensures |s| <= 4 * Estimate(s) && CjkCount(s) <= Estimate(s)
    decreases |s|
  {
    if s != "" {
      if IsCjk(s[0]) {
        EstimateBounds(s[1..]);
      } else {
        var n := LeadingRun(s);
        EstimateBounds(s[n..]);
        assert s == s[..n] + s[n..];
        CjkCountAppend(s[..n], s[n..]);
        NoCjk(s[..n]);
        QuarterBounds(n);
      }
    }
  }

  lemma QuarterBounds(n: nat)
    ensures n <= 4 * Quarter(n) < n + 4
  {}

  // One message

  function CallsChars(calls: seq<ToolCall>): nat {
    if calls == [] then 0 else |calls[0].id| + |calls[0].name| + |calls[0].arguments| + CallsChars(calls[1..])
  }

  lemma {:induction false} JsonKeepsLength(s: string)
    ensures |JsonText(s)| >= |s|
  {
    if s != "" {
      JsonKeepsLength(s[1..]);
    }
  }

  function Escaped(s: string): nat {
    if s == "" then 0
    else
      (if s[0] in "\"\\\n\r\t" || s[0] as int == 8 || s[0] as int == 12 then 1
       else if s[0] as int < 32 then 5 else 0)
      + Escaped(s[1..])
  }

  /** Quotes, backslashes and the common control characters take two characters, the other control characters six. */
  lemma {:induction false} JsonLength(s: string)
    ensures |JsonText(s)| == |s| + Escaped(s)
  {
    if s != "" {
      JsonLength(s[1..]);
    }
  }

  lemma CallJsonLength(call: ToolCall)
    ensures |CallJson(call)| >= |call.id| + |call.name| + |call.arguments|
  {
    hide JsonText;
    JsonKeepsLength(call.id);
    JsonKeepsLength(call.name);
    JsonKeepsLength(call.arguments);
  }

  lemma {:induction false} CallsJsonLength(calls: seq<ToolCall>)
    ensures |CallsJson(calls)| >= CallsChars(calls)
  {
    if calls != [] {
      hide CallJson;
      CallJsonLength(calls[0]);
      CallsJsonLength(calls[1..]);
    }
  }

  /** The characters of a message that its author chose: its content, the ids it refers to, its calls. */
  function Chars(m: Message): nat {
    |m.content| + (if m.Tool? then |m.callId| else 0) + (if m.Assistant? then CallsChars(m.calls) else 0)
  }

  lemma MessageBounds(m: Message)
    ensures Chars(m) <= 4 * MessageTokens(m) && CjkCount(m.content) <= MessageTokens(m)
    ensures Estimate(m.content) + 4 < MessageTokens(m)
  {
    EstimateBounds(m.content);
    assert Estimate(Role(m)) > 0 by { EstimateAtMostLength(Role(m)); }
    hide Estimate, CallsJson, Role;
    if m.Tool? {
      EstimateBounds(m.callId);
    } else if IsGroupHead(m) {
      CallsJsonLength(m.calls);
      EstimateBounds("[" + CallsJson(m.calls) + "]");
    }
  }

  /** A text in a script below Hiragana, such as an alphabet, is one run. */
  lemma {:induction false} AllLeading(s: string)
    requires forall i :: 0 <= i < |s| ==> s[i] < '\U{3040}'
    ensures LeadingRun(s) == |s|
  {
    if s != "" {
      AllLeading(s[1..]);
    }
  }

  /** It costs a quarter of its length, rounded up. */
  lemma AlphabetEstimate(s: string)
    requires forall i :: 0 <= i < |s| ==> s[i] < '\U{3040}'
    ensures Estimate(s) == (|s| + 3) / 4
  {
    AllLeading(s);
    EstimateUnfold(s);
    assert s[|s|..] == "";
  }

  /** A text of Han ideographs, kana and Hangul costs its length. */
  lemma {:induction false} CjkEstimate(s: string)
    requires forall i :: 0 <= i < |s| ==>
      || '\U{4E00}' <= s[i] <= '\U{9FFF}' || '\U{3400}' <= s[i] <= '\U{4DBF}' || '\U{F900}' <= s[i] <= '\U{FAFF}'
      || '\U{3040}' <= s[i] <= '\U{30FF}' || '\U{AC00}' <= s[i] <= '\U{D7AF}'
    ensures Estimate(s) == |s|
  {
    if s != "" {
      CjkEstimate(s[1..]);
    }
  }

  lemma RoleTokens(m: Message)
    ensures Estimate(Role(m)) ==
            match m case System(_) => 2 case User(_) => 1 case Assistant(_, _) => 3 case Tool(_, _) => 1
  {
    hide Estimate;
    AlphabetEstimate(Role(m));
  }

  /** A message without text costs its frame alone. */
  lemma EmptyMessages()
    ensures MessageTokens(User("")) == 5 && MessageTokens(System("")) == 6
    ensures MessageTokens(Assistant("", [])) == 7 && MessageTokens(Tool("", "")) == 5
  {
    assert Estimate("") == 0;
    hide Estimate, Role;
    RoleTokens(User(""));
    RoleTokens(System(""));
    RoleTokens(Assistant("", []));
    RoleTokens(Tool("", ""));
  }

  /** The texts of a message are counted one by one: changing one changes its cost by the change of the estimates. */
  lemma MessageChange(m: Message, content: string)
    ensures MessageTokens(m.(content := content)) - MessageTokens(m) == Estimate(content) - Estimate(m.content)
    ensures m.Tool? ==> forall id ::
      MessageTokens(Tool(id, m.content)) - MessageTokens(m) == Estimate(id) - Estimate(m.callId)
    ensures m.Assistant? && m.calls == [] ==> forall calls :: calls != [] ==>
      MessageTokens(Assistant(m.content, calls)) - MessageTokens(m) == Estimate("[" + CallsJson(calls) + "]")
  {
    hide Estimate, CallsJson;
  }

  // A window

  function WindowChars(ms: seq<Message>): nat {
    if ms == [] then 0 else Chars(ms[0]) + WindowChars(ms[1..])
  }

  function WindowCjk(ms: seq<Message>): nat {
    if ms == [] then 0 else CjkCount(ms[0].content) + WindowCjk(ms[1..])
  }

  function ContentTokens(ms: seq<Message>): nat {
    if ms == [] then 0 else Estimate(ms[0].content) + ContentTokens(ms[1..])
  }

  lemma {:induction false} WindowBounds(ms: seq<Message>)
    ensures WindowChars(ms) <= 4 * WindowTokens(ms) && WindowCjk(ms) <= WindowTokens(ms)
    ensures WindowTokens(ms) >= ContentTokens(ms) + 5 * |ms|
  {
    if ms != [] {
      hide MessageTokens, Chars, Estimate;
      MessageBounds(ms[0]);
      WindowBounds(ms[1..]);
    }
  }

  /** Changing one message of a window changes its count by the change of that message's cost. */
  lemma WindowChange(ms: seq<Message>, i: nat, m: Message)
    requires i < |ms|
    ensures WindowTokens(ms[i := m]) - WindowTokens(ms) == MessageTokens(m) - MessageTokens(ms[i])
  {
    hide MessageTokens;
    assert ms == ms[..i] + ([ms[i]] + ms[i + 1..]) && ms[i := m] == ms[..i] + ([m] + ms[i + 1..]);
    WindowTokensAppend(ms[..i], [ms[i]] + ms[i + 1..]);
    WindowTokensAppend(ms[..i], [m] + ms[i + 1..]);
    assert ([ms[i]] + ms[i + 1..])[1..] == ms[i + 1..] == ([m] + ms[i + 1..])[1..];
  }

  /** So changing one content changes it by the change of the estimates. */
  lemma ContentChange(ms: seq<Message>, i: nat, content: string)
    requires i < |ms|
    ensures WindowTokens(ms[i := ms[i].(content := content)]) - WindowTokens(ms)
         == Estimate(content) - Estimate(ms[i].content)
  {
    hide MessageTokens, Estimate, WindowTokens;
    WindowChange(ms, i, ms[i].(content := content));
    MessageChange(ms[i], content);
  }

  lemma SplitCost(ms: seq<Message>, budget: int)
    ensures WithinBudget(ms[..SystemPrefix(ms)], Blocks(ms[SystemPrefix(ms)..]), budget) <==> WindowTokens(ms) <= budget
  {
    hide Blocks, WindowTokens, SystemPrefix;
    var n := SystemPrefix(ms);
    BlocksFlatten(ms[n..]);
    assert ms == ms[..n] + ms[n..];
    WindowTokensAppend(ms[..n], ms[n..]);
  }

  /** A window left alone because it is within budget is short: at most four characters a token of the budget. */
  lemma WithinBudgetIsShort(ms: seq<Message>, budget: int)
    requires WithinBudget(ms[..SystemPrefix(ms)], Blocks(ms[SystemPrefix(ms)..]), budget)
    ensures WindowChars(ms) <= 4 * budget && WindowCjk(ms) <= budget
  {
    hide WindowTokens, WithinBudget;
    SplitCost(ms, budget);
    WindowBounds(ms);
  }

  /** A window of two blocks whose contents alone are estimated above the budget is compacted, if the summarizer
      answers: it loses at least its first block to the summary. */
  lemma OverlongIsCompacted(before: seq<Message>, after: seq<Message>, budget: int, summary: string)
    requires |Blocks(before[SystemPrefix(before)..])| >= 2 && ContentTokens(before) > budget
    requires Packed(before, after, budget, Some(summary))
    ensures exists k: nat ::
      && 0 < k < |Blocks(before[SystemPrefix(before)..])|
      && after == before[..SystemPrefix(before)] + [SummaryMessage(summary)]
                + Flatten(Blocks(before[SystemPrefix(before)..])[k..])
  {
    hide WindowTokens, WithinBudget, Blocks, SystemPrefix;
    SplitCost(before, budget);
    WindowBounds(before);
    var n := SystemPrefix(before);
    var p: Plan :| IsPlan(p, before[..n], Blocks(before[n..]), budget, SUMMARY_RESERVE)
        && after == Rewritten(before[..n], summary, p.kept);
    assert p.kept == Blocks(before[n..])[|p.dropped|..];
  }

  /** The summary a compaction leaves is the summarizer's text between two tags. */
  lemma SummaryIsKept(summary: string)
    ensures
      var content := SummaryMessage(summary).content;
      |content| == |summary| + 21 && content[10..|content| - 11] == summary
  {
    var open := "<summary>\n";
    var content := open + summary + "\n</summary>";
    assert content[|open|..|open| + |summary|] == summary;
  }
}
