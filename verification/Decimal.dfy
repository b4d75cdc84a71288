/** Decimal printing into a fixed buffer and its digit loop back, on 64-bit integers. */
module Decimal {
  import opened Common

  const TWO_63: int := 0x8000_0000_0000_0000

  predicate IsInt64(n: int) {
    -TWO_63 <= n < TWO_63
  }

  /** Two's complement wrap-around. */
  function Wrap64(n: int): (r: int)
    ensures IsInt64(r)
  {
    (n + TWO_63) % (2 * TWO_63) - TWO_63
  }

  predicate IsDigit(c: char) {
    '0' <= c <= '9'
  }

  function DigitChar(d: nat): char
    requires d < 10
  {
    '0' + d as char
  }

  /** The digits of a positive number; none for zero. */
  function Digits(n: nat): string {
    if n == 0 then "" else Digits(n / 10) + [DigitChar(n % 10)]
  }

  predicate AllDigits(s: string) {
    forall i :: 0 <= i < |s| ==> IsDigit(s[i])
  }

  /** The number a text of digits stands for. */
  function ValueOf(s: string): nat
    requires AllDigits(s)
  {
    if s == "" then 0 else 10 * ValueOf(s[..|s| - 1]) + (s[|s| - 1] as int - '0' as int)
  }

  lemma {:induction false} DigitsRoundTrip(n: nat)
    ensures AllDigits(Digits(n))
    ensures ValueOf(Digits(n)) == n
  {
    if n != 0 {
      DigitsRoundTrip(n / 10);
      assert Digits(n)[..|Digits(n)| - 1] == Digits(n / 10);
    }
  }

  /** Integers as Python prints them. */
  function Decimal(n: int): string {
    if n == 0 then "0" else if n < 0 then "-" + Digits(-n) else Digits(n)
  }

  /** What itoa prints: negating the least integer leaves it negative, so it comes out without digits. */
  function Printed(n: int): string {
    if n == -TWO_63 then "-" else Decimal(n)
  }

  function Pow10(k: nat): nat {
    if k == 0 then 1 else 10 * Pow10(k - 1)
  }

  lemma Pow10Of19()
    ensures TWO_63 < Pow10(19)
  {
    assert Pow10(5) == 100000;
    assert Pow10(10) == 10000000000;
    assert Pow10(15) == 1000000000000000;
    assert Pow10(19) == 10000000000000000000;
  }

  lemma Tenth(m: nat, k: nat)
    requires 0 < m < Pow10(k)
    ensures k >= 1 && m / 10 < Pow10(k - 1)
  {}

  /** Fills the buffer from the back; twenty bytes leave room for a sign. */
  method FillDigits(b: array<char>, n: int) returns (i: nat)
    requires b.Length == 20 && n <= TWO_63
    modifies b
    ensures 1 <= i <= 20 && b[i..] == if n > 0 then Digits(n) else ""
  {
    hide Pow10;
    i := 20;
    var m := n;
    Pow10Of19();
    if n <= 0 { return; }
    while m > 0
      invariant 1 <= i <= 20 && 0 <= m < Pow10(i - 1)
      invariant Digits(m) + b[i..] == Digits(n)
    {
      Tenth(m, i - 1);
      ghost var done := b[i..];
      i := i - 1;
      b[i] := DigitChar(m % 10);
      assert b[i..] == [DigitChar(m % 10)] + done;
      assert Digits(m / 10) + b[i..] == Digits(m) + done;
      m := m / 10;
    }
  }

  lemma NegationWraps(n: int)
    requires IsInt64(n)
    ensures Wrap64(-n) == if n == -TWO_63 then n else -n
  {}

  method Itoa(n: int) returns (s: string)
    requires IsInt64(n)
    ensures s == Printed(n)
  {
    NegationWraps(n);
    hide Wrap64, Digits;
    if n == 0 { return "0"; }
    var b := new char[20];
    var neg := n < 0;
    var m := if neg then Wrap64(-n) else n;
    var i := FillDigits(b, m);
    if neg {
      ghost var digits := b[i..];
      i := i - 1;
      b[i] := '-';
      assert b[i..] == "-" + digits;
    }
    return b[i..];
  }

  /** The digit loop of ParseAccess. */
  method ParseSubject(subject: string) returns (r: Result<int>)
    ensures r == Parsed(subject)
  {
    var uid := 0;
    var i := 0;
    while i < |subject|
      invariant 0 <= i <= |subject|
      invariant AllDigits(subject[..i])
      invariant uid == Wrap64(ValueOf(subject[..i]))
    {
      var ch := subject[i];
      if !IsDigit(ch) {
        return Err("unauthorized");
      }
      assert subject[..i + 1][..i] == subject[..i];
      WrapStep(ValueOf(subject[..i]), ch as int - '0' as int);
      uid := Wrap64(uid * 10 + ch as int - '0' as int);
      i := i + 1;
    }
    assert subject[..i] == subject;
    r := Ok(uid);
  }

  function Parsed(s: string): Result<int> {
    if AllDigits(s) then Ok(Wrap64(ValueOf(s))) else Err("unauthorized")
  }

  lemma WrapStep(v: int, d: int)
    ensures Wrap64(Wrap64(v) * 10 + d) == Wrap64(v * 10 + d)
  {
    var q := (v + TWO_63) / (2 * TWO_63);
    assert v == Wrap64(v) + q * (2 * TWO_63);
    var x := Wrap64(v) * 10 + d;
    assert v * 10 + d == x + (10 * q) * (2 * TWO_63);
    WrapShift(x, 10 * q);
  }

  lemma WrapShift(x: int, k: int)
    ensures Wrap64(x + k * (2 * TWO_63)) == Wrap64(x)
  {
    var m := 2 * TWO_63;
    var y := x + TWO_63;
    var q := y / m;
    assert y == q * m + y % m;
    assert y + k * m == (q + k) * m + y % m;
  }

  /** Printing an id and reading it back gives the id exactly when it is not negative. */
  lemma IdRoundTrip(n: int)
    requires IsInt64(n)
    ensures Parsed(Printed(n)) == Ok(n) <==> n >= 0
    ensures n < 0 ==> Parsed(Printed(n)).Err?
  {
    if n < 0 {
      assert Printed(n)[0] == '-' && !IsDigit(Printed(n)[0]);
    } else if n == 0 {
      ZeroRoundTrip();
    } else {
      DigitsRoundTrip(n);
      SmallStays(n);
    }
  }

  lemma ZeroRoundTrip()
    ensures Parsed("0") == Ok(0)
  {
    var s := "0";
    assert s[..0] == "" && ValueOf(s[..0]) == 0 && s[0] as int - '0' as int == 0;
    assert AllDigits(s);
    SmallStays(0);
  }

  lemma SmallStays(n: int)
    requires IsInt64(n)
    ensures Wrap64(n) == n
  {}
}
