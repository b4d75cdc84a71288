/** Normalized finish reasons, as in completion.py. */
module Completion {
  import opened Common

  datatype FinishKind = Completed | ToolCalls | OutputLimit | Filtered | Errored | Cancelled | Unknown

  /** The characters Python's str.strip removes. */
  predicate IsSpace(c: char) {
    var o := c as int;
    || 0x09 <= o <= 0x0D || 0x1C <= o <= 0x20 || o == 0x85 || o == 0xA0 || o == 0x1680
    || 0x2000 <= o <= 0x200A || o == 0x2028 || o == 0x2029 || o == 0x202F || o == 0x205F || o == 0x3000
  }

  predicate Blank(s: string) {
    forall i :: 0 <= i < |s| ==> IsSpace(s[i])
  }

  function StripLeft(s: string): string {
    if s != "" && IsSpace(s[0]) then StripLeft(s[1..]) else s
  }

  function StripRight(s: string): string {
    if s != "" && IsSpace(s[|s| - 1]) then StripRight(s[..|s| - 1]) else s
  }

  function Strip(s: string): string {
    StripRight(StripLeft(s))
  }

  /** str.lower, exact on every text whose lower case is ASCII; the Kelvin sign is the one other letter that lowers to
      ASCII. */
  function Lower(s: string): string {
    if s == "" then ""
    else
      var c := s[0];
      var l := if 'A' <= c <= 'Z' then c - 'A' + 'a' else if c as int == 0x212A then 'k' else c;
      [l] + Lower(s[1..])
  }

  const COMPLETED := {"stop", "end_turn", "stop_sequence", "completed"}
  const TOOL_CALLS := {"tool_calls", "tool_use", "function_call", "function_calls"}
  const OUTPUT_LIMIT := {"length", "max_tokens", "max_output_tokens", "max_completion_tokens", "incomplete"}
  const FILTERED := {"content_filter", "refusal", "safety", "filtered"}
  const CANCELLED := {"aborted", "cancelled", "canceled"}

  function NormalizeFinish(reason: Option<string>, hasToolCalls: bool, cancelled: bool): FinishKind {
    if cancelled then Cancelled
    else
      var raw := if reason.Some? then Lower(Strip(reason.value)) else "";
      if raw in CANCELLED then Cancelled
      else if raw in OUTPUT_LIMIT then OutputLimit
      else if raw in FILTERED then Filtered
      else if raw in TOOL_CALLS || hasToolCalls then ToolCalls
      else if raw in COMPLETED || raw == "" then Completed
      else Unknown
  }

  // What the reasons mean

  predicate IsPlain(s: string) {
    forall i :: 0 <= i < |s| ==> 'a' <= s[i] <= 'z' || s[i] == '_'
  }

  lemma {:induction false} LowerOfPlain(s: string)
    requires IsPlain(s)
    ensures Lower(s) == s
  {
    if s != "" {
      LowerOfPlain(s[1..]);
    }
  }

  lemma PlainReason(s: string)
    requires IsPlain(s)
    ensures Lower(Strip(s)) == s
  {
    LowerOfPlain(s);
  }

  lemma PlainOrdinary(reason: string)
    ensures reason in COMPLETED + TOOL_CALLS ==> IsPlain(reason)
  {}

  lemma PlainLimits(reason: string)
    ensures reason in OUTPUT_LIMIT ==> IsPlain(reason)
  {}

  lemma PlainOthers(reason: string)
    ensures reason in FILTERED + CANCELLED ==> IsPlain(reason)
  {}

  lemma ReasonKind(reason: string, calls: bool)
    requires Lower(Strip(reason)) == reason && reason != ""
    ensures NormalizeFinish(Some(reason), calls, false)
         == if reason in CANCELLED then Cancelled
            else if reason in OUTPUT_LIMIT then OutputLimit
            else if reason in FILTERED then Filtered
            else if reason in TOOL_CALLS || calls then ToolCalls
            else if reason in COMPLETED then Completed else Unknown
  {}

  /** The reasons providers give for a finished answer, for tool calls, for the output limit, for a filter and for a
      cancelled call; with tool calls, a reason for a finished answer means tool calls. */
  lemma KnownReasons(reason: string, calls: bool)
    ensures reason in {"stop", "end_turn", "stop_sequence", "completed"} ==>
      NormalizeFinish(Some(reason), calls, false) == if calls then ToolCalls else Completed
    ensures reason in {"tool_calls", "tool_use", "function_call", "function_calls"} ==>
      NormalizeFinish(Some(reason), calls, false) == ToolCalls
    ensures reason in {"length", "max_tokens", "max_output_tokens", "max_completion_tokens", "incomplete"} ==>
      NormalizeFinish(Some(reason), calls, false) == OutputLimit
    ensures reason in {"content_filter", "refusal", "safety", "filtered"} ==>
      NormalizeFinish(Some(reason), calls, false) == Filtered
    ensures reason in {"aborted", "cancelled", "canceled"} ==>
      NormalizeFinish(Some(reason), calls, false) == Cancelled
  {
    hide Lower, Strip, NormalizeFinish, IsPlain;
    if reason in COMPLETED + TOOL_CALLS + OUTPUT_LIMIT + FILTERED + CANCELLED {
      PlainOrdinary(reason);
      PlainLimits(reason);
      PlainOthers(reason);
      PlainReason(reason);
      ReasonKind(reason, calls);
    }
  }

  /** Any other plain word is unknown, and means tool calls only when there are some. */
  lemma OtherReasons(reason: string, calls: bool)
    requires IsPlain(reason) && reason != ""
    requires reason !in {"stop", "end_turn", "stop_sequence", "completed", "incomplete"}
    requires reason !in {"content_filter", "refusal", "safety", "filtered"}
    requires reason !in {"tool_calls", "tool_use", "function_call", "function_calls"}
    requires reason !in {"aborted", "cancelled", "canceled"}
    requires reason !in {"length", "max_tokens", "max_output_tokens", "max_completion_tokens"}
    ensures NormalizeFinish(Some(reason), calls, false) == if calls then ToolCalls else Unknown
  {
    hide Lower, Strip, NormalizeFinish, IsPlain;
    PlainReason(reason);
    ReasonKind(reason, calls);
  }

  /** A cancelled run is cancelled, whatever the reason. */
  lemma CancelledFirst(reason: Option<string>, calls: bool)
    ensures NormalizeFinish(reason, calls, true) == Cancelled
  {}

  /** The same letters, perhaps in another case. */
  predicate SameLetters(s: string, t: string) {
    |s| == |t| && forall i :: 0 <= i < |s| ==>
      || s[i] == t[i]
      || ('A' <= s[i] <= 'Z' && t[i] == s[i] - 'A' + 'a')
      || ('A' <= t[i] <= 'Z' && s[i] == t[i] - 'A' + 'a')
  }

  lemma {:induction false} SameLower(s: string, t: string)
    requires SameLetters(s, t)
    ensures Lower(s) == Lower(t)
  {
    if s != "" {
      SameLower(s[1..], t[1..]);
    }
  }

  lemma {:induction false} SameLeft(s: string, t: string)
    requires SameLetters(s, t)
    ensures SameLetters(StripLeft(s), StripLeft(t))
  {
    if s != "" {
      assert IsSpace(s[0]) <==> IsSpace(t[0]);
      SameLeft(s[1..], t[1..]);
    }
  }

  lemma {:induction false} SameRight(s: string, t: string)
    requires SameLetters(s, t)
    ensures SameLetters(StripRight(s), StripRight(t))
  {
    if s != "" {
      assert IsSpace(s[|s| - 1]) <==> IsSpace(t[|t| - 1]);
      SameRight(s[..|s| - 1], t[..|t| - 1]);
    }
  }

  /** Case does not matter. */
  lemma CaseDoesNotMatter(reason: string, other: string, calls: bool, cancelled: bool)
    requires SameLetters(reason, other)
    ensures NormalizeFinish(Some(reason), calls, cancelled) == NormalizeFinish(Some(other), calls, cancelled)
  {
    hide Lower, StripLeft, StripRight, SameLetters;
    SameLeft(reason, other);
    SameRight(StripLeft(reason), StripLeft(other));
    SameLower(Strip(reason), Strip(other));
  }

  lemma {:induction false} SpaceOnLeft(space: string, s: string)
    requires Blank(space)
    ensures StripLeft(space + s) == StripLeft(s)
  {
    if space == "" {
      assert space + s == s;
    } else {
      assert (space + s)[1..] == space[1..] + s;
      SpaceOnLeft(space[1..], s);
    }
  }

  lemma {:induction false} SpaceOnRight(s: string, space: string)
    requires Blank(space)
    ensures StripRight(s + space) == StripRight(s)
    decreases |space|
  {
    if space == "" {
      assert s + space == s;
    } else {
      assert (s + space)[..|s + space| - 1] == s + space[..|space| - 1];
      SpaceOnRight(s, space[..|space| - 1]);
    }
  }

  lemma {:induction false} LeftFirst(s: string, space: string)
    requires Blank(space) && s != "" && !IsSpace(s[|s| - 1])
    ensures StripLeft(s + space) == StripLeft(s) + space
  {
    assert (s + space)[0] == s[0];
    if IsSpace(s[0]) {
      assert (s + space)[1..] == s[1..] + space;
      LeftFirst(s[1..], space);
    }
  }

  /** Without a reason, or with a blank one, there are tool calls or a finished answer. */
  lemma NoReason(space: string, calls: bool)
    requires Blank(space)
    ensures NormalizeFinish(None, calls, false) == if calls then ToolCalls else Completed
    ensures NormalizeFinish(Some(space), calls, false) == if calls then ToolCalls else Completed
  {
    SpaceOnLeft(space, "");
    assert space + "" == space;
    assert Strip(space) == "" && Lower("") == "";
  }

  /** White space around a reason does not matter. */
  lemma SpaceDoesNotMatter(before: string, reason: string, after: string, calls: bool, cancelled: bool)
    requires Blank(before) && Blank(after) && reason != "" && !IsSpace(reason[|reason| - 1])
    ensures NormalizeFinish(Some(before + reason + after), calls, cancelled)
         == NormalizeFinish(Some(reason), calls, cancelled)
  {
    hide Lower, StripLeft, StripRight, Blank;
    assert before + reason + after == before + (reason + after);
    SpaceOnLeft(before, reason + after);
    LeftFirst(reason, after);
    SpaceOnRight(StripLeft(reason), after);
  }
}
