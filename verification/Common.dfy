/** Values shared by the other modules. */
module Common {
  datatype Option<+T> = None | Some(value: T)

  datatype Result<+T> = Ok(value: T) | Err(error: string)

  function Max0(n: int): nat {
    if n < 0 then 0 else n
  }

  /** An empty text counts as none. */
  function NonEmpty(s: Option<string>): Option<string> {
    if s == Some("") then None else s
  }

  /** s[:n] of Python, for any n. */
  function Take(s: string, n: int): string {
    if n >= |s| then s else if n >= 0 then s[..n] else if -n >= |s| then "" else s[..|s| + n]
  }

  /** For a limit that is not negative: the first n characters, or all of them. */
  lemma TakeIsPrefix(s: string, n: nat)
    ensures Take(s, n) <= s && |Take(s, n)| == if n < |s| then n else |s|
  {}

  /** The concatenation of all strings of a list, as Python's "".join. */
  function Concat(parts: seq<string>): string {
    if parts == [] then "" else parts[0] + Concat(parts[1..])
  }

  lemma {:induction false} ConcatAppend(parts: seq<string>, more: seq<string>)
    ensures Concat(parts + more) == Concat(parts) + Concat(more)
  {
    if parts == [] {
      assert parts + more == more;
    } else {
      assert (parts + more)[1..] == parts[1..] + more;
      ConcatAppend(parts[1..], more);
    }
  }

  lemma ConcatSnoc(parts: seq<string>, last: string)
    ensures Concat(parts + [last]) == Concat(parts) + last
  {
    ConcatAppend(parts, [last]);
    assert Concat([last]) == last + Concat([]);
  }

  /** s is a subsequence of t: what is left of t after dropping some elements. */
  predicate Subsequence<T(==)>(s: seq<T>, t: seq<T>) {
    if t == [] then s == []
    else
      || Subsequence(s, t[..|t| - 1])
      || (s != [] && s[|s| - 1] == t[|t| - 1] && Subsequence(s[..|s| - 1], t[..|t| - 1]))
  }
}
