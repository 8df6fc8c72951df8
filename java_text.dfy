/**
 * The parts of java.lang that the modelled code relies on: the 64-bit `long`
 * with its wrap-around, `String.indexOf`, `lastIndexOf`, `startsWith`,
 * `endsWith`, `Long.valueOf(String)`, `Long.toString(long)` and the way a
 * `StringBuffer` renders a null reference.
 */
module JavaText {
  import opened Wrappers

  const MIN_LONG: int := -0x8000_0000_0000_0000
  const MAX_LONG: int := 0x7fff_ffff_ffff_ffff
  const TWO_64: int := 0x1_0000_0000_0000_0000

  /** Java's signed 64-bit `long`. */
  type Long = x: int | MIN_LONG <= x <= MAX_LONG

  /** The two's-complement value a Java `long` expression yields for the exact result `x`. */
  function Wrap(x: int): (r: Long)
    ensures MIN_LONG <= x <= MAX_LONG ==> r == x
    ensures r == x - TWO_64 * ((x - MIN_LONG) / TWO_64)
  {
    (x - MIN_LONG) % TWO_64 + MIN_LONG
  }

  /** Two exact results that differ by a multiple of 2^64 wrap to the same `long`. */
  lemma {:induction false} WrapShift(x: int, k: int)
    ensures Wrap(x + k * TWO_64) == Wrap(x)
  {
    var q := (x - MIN_LONG) / TWO_64;
    var q' := (x + k * TWO_64 - MIN_LONG) / TWO_64;
    assert x - MIN_LONG == TWO_64 * q + (x - MIN_LONG) % TWO_64;
    assert x + k * TWO_64 - MIN_LONG == TWO_64 * (q + k) + (x - MIN_LONG) % TWO_64;
    assert q' == q + k;
  }

  /** `a + (b - a)` in `long` arithmetic gives back `b`, whatever wraps in between. */
  lemma AddWrappedDifference(a: Long, b: Long)
    ensures Wrap(a + Wrap(b - a)) == b
  {
    var q := (b - a - MIN_LONG) / TWO_64;
    assert Wrap(b - a) == b - a - TWO_64 * q;
    WrapShift(b, -q);
  }

  /** `a + Wrap(x)` wraps like `a + x`. */
  lemma AddWrapped(a: Long, x: int)
    ensures Wrap(a + Wrap(x)) == Wrap(a + x)
  {
    var q := (x - MIN_LONG) / TWO_64;
    assert a + Wrap(x) == (a + x) + (-q) * TWO_64;
    WrapShift(a + x, -q);
  }

  /** How `StringBuffer.append(String)` renders its argument: a null reference as "null". */
  function Show(s: Option<string>): (r: string)
    ensures s.Some? ==> r == s.value
    ensures s.None? ==> r == "null"
  {
    match s
    case None => "null"
    case Some(v) => v
  }

  predicate StartsWith(s: string, prefix: string) {
    |prefix| <= |s| && s[..|prefix|] == prefix
  }

  predicate EndsWith(s: string, suffix: string) {
    |suffix| <= |s| && s[|s| - |suffix|..] == suffix
  }

  /** `s.indexOf(c)`: the first position of `c` in `s`, or -1. */
  function IndexOf(s: string, c: char): (r: int)
    ensures -1 <= r < |s|
    ensures r == -1 <==> c !in s
    ensures 0 <= r ==> s[r] == c && c !in s[..r]
  {
    if |s| == 0 then -1
    else if s[0] == c then 0
    else
      var k := IndexOf(s[1..], c);
      if k == -1 then -1
      else
        assert s[..k + 1] == [s[0]] + s[1..][..k];
        k + 1
  }

  /** A position holding `c` with no `c` before it is the one `indexOf` finds. */
  lemma IndexOfIs(s: string, c: char, k: int)
    requires 0 <= k < |s| && s[k] == c
    requires forall j :: 0 <= j < k ==> s[j] != c
    ensures IndexOf(s, c) == k
  {
  }

  /** `s.lastIndexOf(c)`: the last position of `c` in `s`, or -1. */
  function LastIndexOf(s: string, c: char): (r: int)
    ensures -1 <= r < |s|
    ensures r == -1 <==> c !in s
    ensures 0 <= r ==> s[r] == c && c !in s[r + 1..]
  {
    if |s| == 0 then -1
    else if s[|s| - 1] == c then |s| - 1
    else
      var init := s[..|s| - 1];
      var k := LastIndexOf(init, c);
      assert s == init + [s[|s| - 1]];
      assert k >= 0 ==> s[k + 1..] == init[k + 1..] + [s[|s| - 1]];
      k
  }

  predicate IsDigit(c: char) {
    '0' <= c <= '9'
  }

  predicate AllDigits(s: string) {
    forall i :: 0 <= i < |s| ==> IsDigit(s[i])
  }

  function DigitValue(c: char): (d: nat)
    requires IsDigit(c)
    ensures d < 10
  {
    c as int - '0' as int
  }

  function DigitChar(d: nat): (c: char)
    requires d < 10
    ensures IsDigit(c) && DigitValue(c) == d
  {
    ('0' as int + d) as char
  }

  /** The number a string of decimal digits denotes. */
  function DigitsValue(s: string): nat
    requires AllDigits(s)
  {
    if |s| == 0 then 0 else DigitsValue(s[..|s| - 1]) * 10 + DigitValue(s[|s| - 1])
  }

  /** The shortest decimal digit string of `n`. */
  function NatToDigits(n: nat): (r: string)
    ensures |r| > 0 && AllDigits(r)
  {
    if n < 10 then [DigitChar(n)] else NatToDigits(n / 10) + [DigitChar(n % 10)]
  }

  lemma {:induction false} DigitsRoundTrip(n: nat)
    ensures DigitsValue(NatToDigits(n)) == n
  {
    if n >= 10 {
      DigitsRoundTrip(n / 10);
      var s := NatToDigits(n);
      assert s[..|s| - 1] == NatToDigits(n / 10);
    }
  }

  /** `Long.toString(n)`: an optional minus sign followed by the digits of |n|. */
  function LongToString(n: Long): (r: string)
    ensures |r| > 0
    ensures n >= 0 ==> r == NatToDigits(n)
    ensures n < 0 ==> r == "-" + NatToDigits(-(n as int))
  {
    if n < 0 then "-" + NatToDigits(-(n as int)) else NatToDigits(n)
  }

  /**
   * `Long.valueOf(s)` (that is, `Long.parseLong(s, 10)`): an optional sign,
   * then at least one decimal digit, denoting a value inside the `long`
   * range; `None` stands for the NumberFormatException thrown otherwise.
   */
  function ParseLong(s: string): (r: Option<Long>)
    ensures r.Some? ==> |s| > 0 && (IsDigit(s[0]) || s[0] == '-' || s[0] == '+')
    ensures |s| == 0 ==> r.None?
    ensures |s| > 0 && AllDigits(s) ==> (r.Some? <==> DigitsValue(s) <= MAX_LONG)
    ensures |s| > 0 && AllDigits(s) && DigitsValue(s) <= MAX_LONG ==> r == Some(DigitsValue(s))
  {
    if |s| == 0 then None
    else
      var negative := s[0] == '-';
      var digits := if s[0] == '-' || s[0] == '+' then s[1..] else s;
      if |digits| == 0 || !AllDigits(digits) then None
      else
        var magnitude: int := DigitsValue(digits);
        var v := if negative then -magnitude else magnitude;
        if MIN_LONG <= v <= MAX_LONG then Some(v) else None
  }

  /** `Long.valueOf(Long.toString(n)) == n`. */
  lemma ParseLongToString(n: Long)
    ensures ParseLong(LongToString(n)) == Some(n)
  {
    if n < 0 {
      DigitsRoundTrip(-(n as int));
      assert LongToString(n)[1..] == NatToDigits(-(n as int));
    } else {
      DigitsRoundTrip(n);
    }
  }

  /** Distinct longs print differently. */
  lemma LongToStringInjective(a: Long, b: Long)
    requires a != b
    ensures LongToString(a) != LongToString(b)
  {
    ParseLongToString(a);
    ParseLongToString(b);
  }
}
