/** Workspace globs: the compiler from glob to regular expression, and what its output matches. */
module Glob {
  import opened Common
  import opened Completion

  // Regular expressions

  /** The pieces the compiler appends to its output: (?:.*\/)?  .*  [^/]*  [^/]  and an escaped character. */
  datatype Token = AnyDirs | AnyText | SegText | SegChar | Lit(c: char)

  /** What one piece matches; the dot does not match a newline. */
  predicate Eats(t: Token, s: string) {
    match t
    case AnyDirs => s == "" || (s[|s| - 1] == '/' && '\n' !in s[..|s| - 1])
    case AnyText => '\n' !in s
    case SegText => '/' !in s
    case SegChar => |s| == 1 && s[0] != '/'
    case Lit(c) => s == [c]
  }

  /** A full match of the pieces in order. */
  predicate FullMatch(ts: seq<Token>, s: string) {
    if ts == [] then s == ""
    else exists k :: 0 <= k <= |s| && Eats(ts[0], s[..k]) && FullMatch(ts[1..], s[k..])
  }

  // The compiler

  /** Two stars at this place of the pattern. */
  predicate StarsAt(p: string, i: nat) {
    i + 1 < |p| && p[i] == '*' && p[i + 1] == '*'
  }

  predicate StarsSlashAt(p: string, i: nat) {
    StarsAt(p, i) && i + 2 < |p| && p[i + 2] == '/'
  }

  function CharToken(c: char): Token {
    if c == '*' then SegText else if c == '?' then SegChar else Lit(c)
  }

  function Compile(p: string): seq<Token> {
    if p == "" then []
    else if StarsSlashAt(p, 0) then [AnyDirs] + Compile(p[3..])
    else if StarsAt(p, 0) then [AnyText] + Compile(p[2..])
    else [CharToken(p[0])] + Compile(p[1..])
  }

  lemma CompileAt(p: string, i: nat)
    requires i < |p|
    ensures StarsSlashAt(p, i) ==> Compile(p[i..]) == [AnyDirs] + Compile(p[i + 3..])
    ensures StarsAt(p, i) && !StarsSlashAt(p, i) ==> Compile(p[i..]) == [AnyText] + Compile(p[i + 2..])
    ensures !StarsAt(p, i) ==> Compile(p[i..]) == [CharToken(p[i])] + Compile(p[i + 1..])
  {
    var q := p[i..];
    assert q[1..] == p[i + 1..];
    if StarsAt(p, i) { assert q[2..] == p[i + 2..]; }
    if StarsSlashAt(p, i) { assert q[3..] == p[i + 3..]; }
  }

  method GlobToRe(pattern: string) returns (out: seq<Token>)
    ensures out == Compile(pattern)
  {
    hide Compile;
    var i := 0;
    out := [];
    assert pattern[0..] == pattern;
    while i < |pattern|
      invariant 0 <= i <= |pattern|
      invariant out + Compile(pattern[i..]) == Compile(pattern)
    {
      CompileAt(pattern, i);
      ghost var before := out;
      if StarsSlashAt(pattern, i) {
        out := out + [AnyDirs];
        i := i + 3;
      } else if StarsAt(pattern, i) {
        out := out + [AnyText];
        i := i + 2;
      } else if pattern[i] == '*' {
        out := out + [SegText];
        i := i + 1;
      } else if pattern[i] == '?' {
        out := out + [SegChar];
        i := i + 1;
      } else {
        out := out + [Lit(pattern[i])];
        i := i + 1;
      }
      Regroup(before, out[|before|], Compile(pattern[i..]));
    }
    CompileEnd(pattern[i..]);
  }

  lemma Regroup(a: seq<Token>, t: Token, b: seq<Token>)
    ensures a + [t] + b == a + ([t] + b)
  {}

  lemma CompileEnd(p: string)
    requires p == ""
    ensures Compile(p) == []
  {}

  // Matching piece by piece

  lemma LitThen(c: char, ts: seq<Token>, s: string)
    ensures FullMatch([Lit(c)] + ts, s) <==> s != "" && s[0] == c && FullMatch(ts, s[1..])
  {
    var all := [Lit(c)] + ts;
    assert all[1..] == ts;
    if s != "" && s[0] == c && FullMatch(ts, s[1..]) {
      assert s[..1] == [c];
      assert Eats(all[0], s[..1]) && FullMatch(all[1..], s[1..]);
    }
  }

  lemma SegCharThen(ts: seq<Token>, s: string)
    ensures FullMatch([SegChar] + ts, s) <==> s != "" && s[0] != '/' && FullMatch(ts, s[1..])
  {
    var all := [SegChar] + ts;
    assert all[1..] == ts;
    if s != "" && s[0] != '/' && FullMatch(ts, s[1..]) {
      assert s[..1] == [s[0]];
      assert Eats(all[0], s[..1]) && FullMatch(all[1..], s[1..]);
    }
  }

  lemma SegTextThen(ts: seq<Token>, s: string)
    ensures FullMatch([SegText] + ts, s) <==>
              FullMatch(ts, s) || (s != "" && s[0] != '/' && FullMatch([SegText] + ts, s[1..]))
  {
    hide FullMatch;
    if FullMatch([SegText] + ts, s) { SegTextTake(ts, s); }
    if FullMatch(ts, s) { SegTextEat(ts, s, 0); }
    if s != "" && s[0] != '/' && FullMatch([SegText] + ts, s[1..]) { SegTextMore(ts, s); }
  }

  lemma SegTextEat(ts: seq<Token>, s: string, k: nat)
    requires k <= |s| && '/' !in s[..k] && FullMatch(ts, s[k..])
    ensures FullMatch([SegText] + ts, s)
  {
    var all := [SegText] + ts;
    assert all[1..] == ts;
    assert s[0..] == s;
    assert Eats(all[0], s[..k]) && FullMatch(all[1..], s[k..]);
  }

  lemma SegTextTake(ts: seq<Token>, s: string)
    requires FullMatch([SegText] + ts, s)
    ensures FullMatch(ts, s) || (s != "" && s[0] != '/' && FullMatch([SegText] + ts, s[1..]))
  {
    assert ([SegText] + ts)[1..] == ts;
    var k :| 0 <= k <= |s| && Eats(SegText, s[..k]) && FullMatch(ts, s[k..]);
    hide FullMatch;
    if k == 0 {
      assert s[0..] == s;
    } else {
      var tail := s[1..];
      assert s[..k][0] == s[0];
      assert tail[..k - 1] == s[..k][1..] && tail[k - 1..] == s[k..];
      SegTextEat(ts, tail, k - 1);
    }
  }

  lemma SegTextMore(ts: seq<Token>, s: string)
    requires s != "" && s[0] != '/' && FullMatch([SegText] + ts, s[1..])
    ensures FullMatch([SegText] + ts, s)
  {
    assert ([SegText] + ts)[1..] == ts;
    var tail := s[1..];
    var k :| 0 <= k <= |tail| && Eats(SegText, tail[..k]) && FullMatch(ts, tail[k..]);
    hide FullMatch;
    assert tail[k..] == s[k + 1..];
    SlashFree(s, k);
    SegTextEat(ts, s, k + 1);
  }

  lemma SlashFree(s: string, k: nat)
    requires k < |s| && s[0] != '/' && '/' !in s[1..][..k]
    ensures '/' !in s[..k + 1]
  {
    assert s[..k + 1] == [s[0]] + s[1..][..k];
  }

  lemma MatchOne(t: Token, s: string)
    ensures FullMatch([t], s) <==> Eats(t, s)
  {
    var all := [t];
    assert all[1..] == [];
    hide Eats;
    if FullMatch(all, s) {
      var k :| 0 <= k <= |s| && Eats(t, s[..k]) && FullMatch([], s[k..]);
      assert s[..k] == s;
    }
    if Eats(t, s) {
      assert s[..|s|] == s && s[|s|..] == "";
      assert Eats(all[0], s[..|s|]) && FullMatch(all[1..], s[|s|..]);
    }
  }

  lemma AnyTextEnds(s: string)
    ensures FullMatch([AnyText], s) <==> '\n' !in s
  {
    MatchOne(AnyText, s);
    hide FullMatch;
  }

  /** Directories, then the rest: no directory at all, or one whole directory and then directories again. */
  lemma AnyDirsSlashless(ts: seq<Token>, x: string)
    requires '/' !in x
    ensures FullMatch([AnyDirs] + ts, x) <==> FullMatch(ts, x)
  {
    var all := [AnyDirs] + ts;
    assert all[1..] == ts;
    if FullMatch(all, x) {
      var k :| 0 <= k <= |x| && Eats(AnyDirs, x[..k]) && FullMatch(ts, x[k..]);
      assert x[0..] == x;
    }
    if FullMatch(ts, x) {
      assert x[..0] == "" && x[0..] == x;
      assert Eats(all[0], x[..0]) && FullMatch(all[1..], x[0..]);
    }
  }

  lemma AnyDirsTake(ts: seq<Token>, x: string, s: string)
    requires '/' !in x
    ensures FullMatch([AnyDirs] + ts, x + "/" + s) ==>
              FullMatch(ts, x + "/" + s) || ('\n' !in x && FullMatch([AnyDirs] + ts, s))
  {
    var all := [AnyDirs] + ts;
    var whole := x + "/" + s;
    assert all[1..] == ts;
    if FullMatch(all, whole) {
      var k :| 0 <= k <= |whole| && Eats(AnyDirs, whole[..k]) && FullMatch(ts, whole[k..]);
      if k == 0 {
        assert whole[0..] == whole;
      } else {
        assert whole[..k][k - 1] == whole[k - 1];
        var j := k - 1 - |x|;
        assert whole[..k - 1] == x + whole[..k][|x|..k - 1];
        DirsSplit(x, s, k);
        assert Eats(all[0], s[..j]) && FullMatch(all[1..], s[j..]);
      }
    }
  }

  lemma DirsSplit(x: string, s: string, k: nat)
    requires |x| < k <= |x| + 1 + |s|
    ensures Eats(AnyDirs, (x + "/" + s)[..k]) <==> '\n' !in x && Eats(AnyDirs, s[..k - 1 - |x|])
    ensures (x + "/" + s)[k..] == s[k - 1 - |x|..]
  {
    var whole := x + "/" + s;
    var j := k - 1 - |x|;
    hide Eats;
    assert whole[k..] == s[j..];
    assert whole[..k] == x + "/" + s[..j];
    DirsEat(x, s[..j]);
  }

  lemma DirsEat(x: string, t: string)
    ensures Eats(AnyDirs, x + "/" + t) <==> '\n' !in x && Eats(AnyDirs, t)
  {
    var whole := x + "/" + t;
    if t == "" {
      assert whole[..|whole| - 1] == x;
    } else {
      var front := t[..|t| - 1];
      assert whole[..|whole| - 1] == x + "/" + front;
      assert '\n' !in x + "/" + front <==> '\n' !in x && '\n' !in front;
    }
  }

  lemma AnyDirsSkip(ts: seq<Token>, x: string, s: string)
    ensures FullMatch(ts, x + "/" + s) ==> FullMatch([AnyDirs] + ts, x + "/" + s)
    ensures '\n' !in x && FullMatch([AnyDirs] + ts, s) ==> FullMatch([AnyDirs] + ts, x + "/" + s)
  {
    var all := [AnyDirs] + ts;
    var whole := x + "/" + s;
    assert all[1..] == ts;
    if FullMatch(ts, whole) {
      assert whole[..0] == "" && whole[0..] == whole;
      assert Eats(all[0], whole[..0]) && FullMatch(all[1..], whole[0..]);
    }
    if '\n' !in x && FullMatch(all, s) {
      var j :| 0 <= j <= |s| && Eats(AnyDirs, s[..j]) && FullMatch(ts, s[j..]);
      var k := |x| + 1 + j;
      DirsSplit(x, s, k);
      assert Eats(all[0], whole[..k]) && FullMatch(all[1..], whole[k..]);
    }
  }

  // The segment matcher

  /** Shell wildcards inside one segment: * stands for any text, ? for one character. */
  predicate Wild(p: string, x: string)
    decreases |p| + |x|
  {
    if p == "" then x == ""
    else if p[0] == '*' then Wild(p[1..], x) || (x != "" && Wild(p, x[1..]))
    else x != "" && (p[0] == '?' || p[0] == x[0]) && Wild(p[1..], x[1..])
  }

  /** Segment by segment: a leading ** stands for zero or more whole directories, a last one for whatever is
      left (neither crosses a newline), and every other segment matches exactly one segment. */
  predicate SegmentMatch(ps: seq<string>, xs: seq<string>)
    requires ps != [] && xs != []
    decreases |ps| + |xs|
  {
    if ps[0] == "**" then
      if |ps| == 1 then forall x :: x in xs ==> '\n' !in x
      else SegmentMatch(ps[1..], xs) || (|xs| > 1 && '\n' !in xs[0] && SegmentMatch(ps, xs[1..]))
    else
      Wild(ps[0], xs[0]) && if |ps| == 1 then |xs| == 1 else |xs| > 1 && SegmentMatch(ps[1..], xs[1..])
  }

  function Split(s: string): (r: seq<string>)
    ensures r != [] && Join(r) == s
    ensures forall x :: x in r ==> '/' !in x
  {
    if s == "" then [""]
    else
      var r := Split(s[1..]);
      if s[0] == '/' then [""] + r
      else [[s[0]] + r[0]] + r[1..]
  }

  function Join(xs: seq<string>): string
    requires xs != []
  {
    if |xs| == 1 then xs[0] else xs[0] + "/" + Join(xs[1..])
  }

  /** A segment the matcher has a meaning for: ** alone, or no two stars in a row. */
  predicate PlainSegment(p: string) {
    p == "**" || forall i :: 0 <= i < |p| ==> !StarsAt(p, i)
  }

  predicate PlainPattern(ps: seq<string>) {
    ps != [] && forall p :: p in ps ==> PlainSegment(p) && '/' !in p
  }

  function SegTokens(p: string): seq<Token> {
    if p == "" then [] else [CharToken(p[0])] + SegTokens(p[1..])
  }

  function PathTokens(ps: seq<string>): seq<Token>
    requires ps != []
  {
    if ps[0] == "**" then (if |ps| == 1 then [AnyText] else [AnyDirs] + PathTokens(ps[1..]))
    else SegTokens(ps[0]) + if |ps| == 1 then [] else [Lit('/')] + PathTokens(ps[1..])
  }

  lemma {:induction false} CompileSegment(p: string, rest: string)
    requires '/' !in p && forall i :: 0 <= i < |p| ==> !StarsAt(p, i)
    requires rest == "" || rest[0] == '/'
    ensures Compile(p + rest) == SegTokens(p) + Compile(rest)
    decreases |p|
  {
    var all := p + rest;
    if p == "" {
      assert all == rest;
    } else {
      assert all[1..] == p[1..] + rest;
      assert !StarsAt(all, 0) by {
        assert !StarsAt(p, 0);
      }
      assert forall i :: 0 <= i < |p| - 1 ==> StarsAt(p[1..], i) == StarsAt(p, i + 1);
      CompileSegment(p[1..], rest);
    }
  }

  lemma {:induction false} CompileJoin(ps: seq<string>)
    requires PlainPattern(ps)
    ensures Compile(Join(ps)) == PathTokens(ps)
    decreases |ps|
  {
    hide Compile;
    if |ps| == 1 {
      CompileLast(ps[0]);
    } else {
      var rest := Join(ps[1..]);
      CompileJoin(ps[1..]);
      CompileFirst(ps[0], rest);
      assert Join(ps) == ps[0] + ("/" + rest);
    }
  }

  lemma CompileLast(p: string)
    requires PlainSegment(p) && '/' !in p
    ensures Compile(p) == if p == "**" then [AnyText] else SegTokens(p)
  {
    if p == "**" {
      assert p[2..] == "" && StarsAt(p, 0);
    } else {
      CompileSegment(p, "");
      assert p + "" == p;
    }
  }

  lemma CompileFirst(p: string, rest: string)
    requires PlainSegment(p) && '/' !in p
    ensures Compile(p + ("/" + rest)) ==
            if p == "**" then [AnyDirs] + Compile(rest) else SegTokens(p) + ([Lit('/')] + Compile(rest))
  {
    var tail := "/" + rest;
    var all := p + tail;
    if p == "**" {
      assert StarsSlashAt(all, 0) && all[3..] == rest;
    } else {
      CompileSegment(p, tail);
      assert tail[1..] == rest;
    }
  }

  /** The tokens of one segment, then what follows the segment. */
  lemma {:induction false} SegmentThen(p: string, ts: seq<Token>, x: string, s: string)
    requires '/' !in p && '/' !in x
    requires ts == [] || ts[0] == Lit('/')
    requires s == "" || s[0] == '/'
    ensures FullMatch(SegTokens(p) + ts, x + s) <==> Wild(p, x) && FullMatch(ts, s)
    decreases |p| + |x|
  {
    hide FullMatch;
    if p == "" {
      assert SegTokens(p) + ts == ts;
      AfterSegment(ts, x, s);
    } else {
      var more := SegTokens(p[1..]) + ts;
      assert SegTokens(p) + ts == [CharToken(p[0])] + more;
      if x != "" { assert (x + s)[1..] == x[1..] + s; } else { assert x + s == s; }
      if p[0] == '*' {
        SegTextThen(more, x + s);
        SegmentThen(p[1..], ts, x, s);
        if x != "" { SegmentThen(p, ts, x[1..], s); }
      } else {
        if p[0] == '?' { SegCharThen(more, x + s); } else { LitThen(p[0], more, x + s); }
        if x != "" { SegmentThen(p[1..], ts, x[1..], s); }
      }
    }
  }

  lemma AfterSegment(ts: seq<Token>, x: string, s: string)
    requires '/' !in x && (ts == [] || ts[0] == Lit('/'))
    ensures FullMatch(ts, x + s) <==> x == "" && FullMatch(ts, s)
  {
    if x == "" {
      assert x + s == s;
    } else if ts != [] {
      assert ts == [Lit('/')] + ts[1..];
      LitThen('/', ts[1..], x + s);
    }
  }

  /** For a pattern whose ** are whole segments, and every path: the tokens match the path exactly when the
      segments do. */
  lemma {:induction false} TokensMatchSegments(ps: seq<string>, xs: seq<string>)
    requires PlainPattern(ps) && xs != [] && forall x :: x in xs ==> '/' !in x
    ensures FullMatch(PathTokens(ps), Join(xs)) <==> SegmentMatch(ps, xs)
    decreases |ps| + |xs|
  {
    hide FullMatch, Wild;
    if ps[0] == "**" {
      if |ps| == 1 {
        AnyTextEnds(Join(xs));
        NewlineInJoin(xs);
      } else {
        var ts := PathTokens(ps[1..]);
        TokensMatchSegments(ps[1..], xs);
        if |xs| == 1 {
          AnyDirsSlashless(ts, xs[0]);
        } else {
          var s := Join(xs[1..]);
          TokensMatchSegments(ps, xs[1..]);
          AnyDirsTake(ts, xs[0], s);
          AnyDirsSkip(ts, xs[0], s);
        }
      }
    } else {
      var ts := if |ps| == 1 then [] else [Lit('/')] + PathTokens(ps[1..]);
      var s := if |xs| == 1 then "" else "/" + Join(xs[1..]);
      assert Join(xs) == xs[0] + s;
      SegmentThen(ps[0], ts, xs[0], s);
      if |ps| > 1 {
        LitThen('/', PathTokens(ps[1..]), s);
        if |xs| > 1 {
          assert s[1..] == Join(xs[1..]);
          TokensMatchSegments(ps[1..], xs[1..]);
        }
      } else {
        EmptyMatch(s);
      }
    }
  }

  lemma EmptyMatch(s: string)
    ensures FullMatch([], s) <==> s == ""
  {}

  lemma {:induction false} NewlineInJoin(xs: seq<string>)
    requires xs != []
    ensures '\n' !in Join(xs) <==> forall x :: x in xs ==> '\n' !in x
  {
    if |xs| > 1 {
      NewlineInJoin(xs[1..]);
      assert xs == [xs[0]] + xs[1..];
    }
  }

  // glob_match

  function Slashed(s: string): string {
    if s == "" then "" else [if s[0] == '\\' then '/' else s[0]] + Slashed(s[1..])
  }

  function LStrip(s: string): string {
    if s != "" && (s[0] == '.' || s[0] == '/') then LStrip(s[1..]) else s
  }

  lemma {:induction false} SlashedAt(s: string, i: nat)
    requires i < |s|
    ensures |Slashed(s)| == |s| && Slashed(s)[i] == if s[i] == '\\' then '/' else s[i]
  {
    if i > 0 {
      SlashedAt(s[1..], i - 1);
    } else if |s| > 1 {
      SlashedAt(s[1..], 0);
    }
  }

  /** Leading dots and slashes go, and nothing else. */
  lemma {:induction false} LStripDrops(s: string)
    ensures |LStrip(s)| <= |s| && s[|s| - |LStrip(s)|..] == LStrip(s)
    ensures forall i :: 0 <= i < |s| - |LStrip(s)| ==> s[i] == '.' || s[i] == '/'
    ensures LStrip(s) != "" ==> LStrip(s)[0] != '.' && LStrip(s)[0] != '/'
  {
    if s != "" && (s[0] == '.' || s[0] == '/') {
      LStripDrops(s[1..]);
    }
  }

  function RawPattern(pattern: string): string {
    if Strip(pattern) == "" then "**/*" else Strip(pattern)
  }

  predicate Escapes(raw: string) {
    (raw != "" && (raw[0] == '/' || raw[0] == '~')) || ".." in Split(raw)
  }

  /** What the text has not, none of its segments has. */
  lemma {:induction false} NotInSegments(xs: seq<string>, c: char)
    requires xs != [] && c !in Join(xs)
    ensures forall x :: x in xs ==> c !in x
  {
    if |xs| > 1 {
      assert xs == [xs[0]] + xs[1..];
      NotInSegments(xs[1..], c);
    }
  }

  /** The refused patterns: those that begin at the root or a home directory, or go up anywhere. A blank pattern stands
      for everything and is not refused. */
  lemma RefusedExactly(pattern: string)
    ensures Escapes(RawPattern(pattern)) <==>
      Strip(pattern) != "" && (Strip(pattern)[0] in ['/', '~'] || ".." in Split(Strip(pattern)))
  {
    if Strip(pattern) == "" {
      assert '.' in "..";
      NotInSegments(Split("**/*"), '.');
    }
  }

  /** glob_match tells whether the pieces match the path or its last segment; for a pattern whose ** are whole
      segments that is whether the segments of the path, or its last segment alone, match. It refuses exactly the
      escaping patterns. */
  method GlobMatch(rel: string, pattern: string) returns (r: Result<bool>)
    ensures r.Err? <==> Escapes(RawPattern(pattern))
    ensures r.Ok? ==>
              var rx := Compile(LStrip(Slashed(RawPattern(pattern))));
              var xs := Split(LStrip(Slashed(rel)));
              r.value <==> FullMatch(rx, Join(xs)) || FullMatch(rx, xs[|xs| - 1])
    ensures r.Ok? && PlainPattern(Split(LStrip(Slashed(RawPattern(pattern))))) ==>
              var ps := Split(LStrip(Slashed(RawPattern(pattern))));
              var xs := Split(LStrip(Slashed(rel)));
              r.value <==> SegmentMatch(ps, xs) || SegmentMatch(ps, [xs[|xs| - 1]])
  {
    var path := LStrip(Slashed(rel));
    var raw := RawPattern(pattern);
    if Escapes(raw) { return Err("path escape"); }
    var pat := LStrip(Slashed(raw));
    var rx := GlobToRe(pat);
    var parts := Split(path);
    var name := parts[|parts| - 1];
    if PlainPattern(Split(pat)) {
      CompileJoin(Split(pat));
      TokensMatchSegments(Split(pat), parts);
      TokensMatchSegments(Split(pat), [name]);
    }
    if FullMatch(rx, path) { return Ok(true); }
    r := Ok(FullMatch(rx, name));
  }
}
