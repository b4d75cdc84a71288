/** The token estimate of context/compact.py: one token a CJK character, a quarter of a token,
    rounded up once per run, for everything else. */
module TokenEstimate {

  predicate IsCjk(ch: char) {
    var o := ch as int;
    || 0x3400 <= o <= 0x4DBF
    || 0x4E00 <= o <= 0x9FFF
    || 0xF900 <= o <= 0xFAFF
    || 0x3040 <= o <= 0x30FF
    || 0xAC00 <= o <= 0xD7AF
  }

  function Quarter(run: nat): nat {
    (run + 3) / 4
  }

  /** Length of the run of non-CJK characters s starts with. */
  function LeadingRun(s: string): (n: nat)
    ensures n <= |s|
    ensures forall i :: 0 <= i < n ==> !IsCjk(s[i])
    ensures n < |s| ==> IsCjk(s[n])
  {
    if s == "" || IsCjk(s[0]) then 0 else 1 + LeadingRun(s[1..])
  }

  /** The specification: CJK characters count one each, every maximal run of others a rounded-up quarter. */
  function Estimate(s: string): nat
    decreases |s|
  {
    if s == "" then 0
    else if IsCjk(s[0]) then 1 + Estimate(s[1..])
    else Quarter(LeadingRun(s)) + Estimate(s[LeadingRun(s)..])
  }

  /** The estimate of s when buf characters of an unfinished run come just before it. */
  function EstimateFrom(buf: nat, s: string): nat
    decreases |s|
  {
    if s == "" then Quarter(buf)
    else if IsCjk(s[0]) then Quarter(buf) + 1 + EstimateFrom(0, s[1..])
    else EstimateFrom(buf + 1, s[1..])
  }

  lemma {:induction false} FromIsEstimate(buf: nat, s: string)
    ensures EstimateFrom(buf, s) == Quarter(buf + LeadingRun(s)) + Estimate(s[LeadingRun(s)..])
    decreases |s|
  {
    if s == "" {
    } else if IsCjk(s[0]) {
      FromIsEstimate(0, s[1..]);
      EstimateUnfold(s[1..]);
      assert s[LeadingRun(s)..] == s;
    } else {
      FromIsEstimate(buf + 1, s[1..]);
      assert s[1..][LeadingRun(s[1..])..] == s[LeadingRun(s)..];
    }
  }

  lemma EstimateUnfold(s: string)
    ensures Estimate(s) == Quarter(LeadingRun(s)) + Estimate(s[LeadingRun(s)..])
  {
    if s != "" && IsCjk(s[0]) {
      assert s[LeadingRun(s)..] == s;
    }
  }

  /** The buffered loop computes the specification. */
  method EstimateTokens(text: string) returns (tokens: nat)
    ensures tokens == Estimate(text)
  {
    tokens := 0;
    var buf := 0;
    FromIsEstimate(0, text);
    EstimateUnfold(text);
    for i := 0 to |text|
      invariant tokens + EstimateFrom(buf, text[i..]) == Estimate(text)
    {
      assert text[i..][1..] == text[i + 1..];
      if IsCjk(text[i]) {
        if buf != 0 {
          tokens := tokens + (buf + 3) / 4;
          buf := 0;
        }
        tokens := tokens + 1;
      } else {
        buf := buf + 1;
      }
    }
    if buf != 0 {
      tokens := tokens + (buf + 3) / 4;
    }
  }

  /** Length of the run still open after reading s with buf characters before it. */
  function OpenRun(buf: nat, s: string): nat
    decreases |s|
  {
    if s == "" then buf else OpenRun(if IsCjk(s[0]) then 0 else buf + 1, s[1..])
  }

  /** Runs of lengths x and y, rounded separately, cost one more than rounded together. */
  predicate Overshoots(x: nat, y: nat) {
    x % 4 != 0 && y % 4 != 0 && x % 4 + y % 4 <= 4
  }

  lemma QuarterSplit(x: nat, y: nat)
    ensures Quarter(x) + Quarter(y) == Quarter(x + y) + if Overshoots(x, y) then 1 else 0
  {
    assert x == 4 * (x / 4) + x % 4 && y == 4 * (y / 4) + y % 4;
  }

  lemma {:induction false} CutText(buf: nat, a: string, b: string)
    ensures EstimateFrom(buf, a) + EstimateFrom(0, b)
         == EstimateFrom(buf, a + b) + if Overshoots(OpenRun(buf, a), LeadingRun(b)) then 1 else 0
    decreases |a|
  {
    if a == "" {
      assert a + b == b;
      CutNothing(buf, b);
    } else {
      hide Quarter, Overshoots, IsCjk, EstimateFrom, LeadingRun;
      CutText(if IsCjk(a[0]) then 0 else buf + 1, a[1..], b);
      CutStep(buf, a);
      CutStepAppend(buf, a, b);
    }
  }

  lemma CutNothing(buf: nat, b: string)
    ensures EstimateFrom(buf, "") + EstimateFrom(0, b)
         == EstimateFrom(buf, b) + if Overshoots(buf, LeadingRun(b)) then 1 else 0
  {
    assert EstimateFrom(buf, "") == Quarter(buf);
    hide *;
    FromIsEstimate(buf, b);
    FromIsEstimate(0, b);
    QuarterSplit(buf, LeadingRun(b));
  }

  lemma CutStep(buf: nat, s: string)
    requires s != ""
    ensures EstimateFrom(buf, s)
         == if IsCjk(s[0]) then Quarter(buf) + 1 + EstimateFrom(0, s[1..]) else EstimateFrom(buf + 1, s[1..])
  {
  }

  lemma CutStepAppend(buf: nat, a: string, b: string)
    requires a != ""
    ensures EstimateFrom(buf, a + b)
         == if IsCjk(a[0]) then Quarter(buf) + 1 + EstimateFrom(0, a[1..] + b) else EstimateFrom(buf + 1, a[1..] + b)
  {
    hide EstimateFrom, IsCjk, Quarter;
    assert (a + b)[1..] == a[1..] + b;
    CutStep(buf, a + b);
  }

  /** The estimate is additive except for one extra token, charged exactly when the cut falls
      inside a run whose two parts round up past the whole. */
  lemma EstimateOfConcatenation(a: string, b: string)
    ensures Estimate(a) + Estimate(b)
         == Estimate(a + b) + if Overshoots(OpenRun(0, a), LeadingRun(b)) then 1 else 0
  {
    CutText(0, a, b);
    forall s: string ensures EstimateFrom(0, s) == Estimate(s) {
      FromIsEstimate(0, s);
      EstimateUnfold(s);
    }
  }

  lemma {:induction false} EstimateAtMostLength(s: string)
    ensures Estimate(s) <= |s|
    ensures s != "" ==> Estimate(s) > 0
    decreases |s|
  {
    if s != "" {
      EstimateAtMostLength(if IsCjk(s[0]) then s[1..] else s[LeadingRun(s)..]);
    }
  }
}
