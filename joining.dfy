/**
 * Strings built by appending parts with a one-character separator, as the
 * fingerprint key (parts joined by `_`) and the ACL grant headers (entries
 * joined by `,`) are, and the splitting that undoes it.
 */
module Joining {
  import opened JavaText

  /** `parts[0] + sep + parts[1] + ... + sep + parts[n-1]`. */
  function Join(parts: seq<string>, sep: char): (r: string)
    requires |parts| > 0
    decreases |parts|
  {
    if |parts| == 1 then parts[0] else parts[0] + [sep] + Join(parts[1..], sep)
  }

  /** A join of several parts ends with the separator and the last part. */
  lemma {:induction false} JoinEndsWith(parts: seq<string>, sep: char)
    requires |parts| > 1
    ensures EndsWith(Join(parts, sep), [sep] + parts[|parts| - 1])
  {
    var last := parts[|parts| - 1];
    var rest := parts[1..];
    var j := Join(parts, sep);
    var t := [sep] + last;
    if |parts| == 2 {
      assert Join(rest, sep) == rest[0] == last;
      assert j == parts[0] + [sep] + last;
      assert j[|j| - |t|..] == t;
    } else {
      JoinEndsWith(rest, sep);
      assert rest[|rest| - 1] == last;
      var jr := Join(rest, sep);
      assert j == parts[0] + [sep] + jr;
      assert j[|j| - |t|..] == jr[|jr| - |t|..];
    }
  }

  /** What a loop that appends `parts[i] + sep` for each `i < n` has built. */
  function Terminated(parts: seq<string>, sep: char, n: nat): string
    requires n <= |parts|
  {
    if n == 0 then "" else Terminated(parts, sep, n - 1) + parts[n - 1] + [sep]
  }

  /** The left part built by such a loop, followed by the join of the rest, is the whole join. */
  lemma {:induction false} TerminatedThenJoin(parts: seq<string>, sep: char, n: nat)
    requires n < |parts|
    ensures Terminated(parts, sep, n) + Join(parts[n..], sep) == Join(parts, sep)
  {
    if n > 0 {
      TerminatedThenJoin(parts, sep, n - 1);
      var rest := parts[n - 1..];
      assert rest[1..] == parts[n..];
      assert Join(rest, sep) == parts[n - 1] + [sep] + Join(parts[n..], sep);
    }
  }

  /** The parts before position k, each followed by `sep`. */
  function Before(parts: seq<string>, sep: char, k: nat): string
    requires k < |parts|
  {
    if k == 0 then "" else Join(parts[..k], sep) + [sep]
  }

  /** The parts after position k, each preceded by `sep`. */
  function After(parts: seq<string>, sep: char, k: nat): string
    requires k < |parts|
  {
    if k == |parts| - 1 then "" else [sep] + Join(parts[k + 1..], sep)
  }

  /** A join splits around any one of its parts. */
  lemma {:induction false} JoinAround(parts: seq<string>, sep: char, k: nat)
    requires k < |parts|
    ensures Join(parts, sep) == Before(parts, sep, k) + parts[k] + After(parts, sep, k)
  {
    if k > 0 {
      var tail := parts[1..];
      JoinAround(tail, sep, k - 1);
      assert tail[k - 1] == parts[k];
      assert tail[k..] == parts[k + 1..];
      assert After(tail, sep, k - 1) == After(parts, sep, k);
      var head := parts[..k];
      assert head[0] == parts[0];
      if k == 1 {
        assert Join(head, sep) == parts[0];
      } else {
        assert head[1..] == tail[..k - 1];
        assert Join(head, sep) == parts[0] + [sep] + Join(tail[..k - 1], sep);
      }
    }
  }

  /** A string placed between the same two strings is recovered from the result. */
  lemma Between(a: string, x: string, y: string, b: string)
    requires a + x + b == a + y + b
    ensures x == y
  {
    var s := a + x + b;
    assert |x| == |y|;
    assert x == s[|a|..|a| + |x|];
    assert y == (a + y + b)[|a|..|a| + |y|];
  }

  /** Two joins whose parts differ at exactly one position are different strings. */
  lemma JoinDiffersAt(xs: seq<string>, ys: seq<string>, sep: char, k: nat)
    requires |xs| == |ys| && k < |xs|
    requires forall i :: 0 <= i < |xs| && i != k ==> xs[i] == ys[i]
    requires xs[k] != ys[k]
    ensures Join(xs, sep) != Join(ys, sep)
  {
    JoinAround(xs, sep, k);
    JoinAround(ys, sep, k);
    assert xs[..k] == ys[..k];
    assert xs[k + 1..] == ys[k + 1..];
    assert Before(xs, sep, k) == Before(ys, sep, k);
    assert After(xs, sep, k) == After(ys, sep, k);
    if Join(xs, sep) == Join(ys, sep) {
      Between(Before(xs, sep, k), xs[k], ys[k], After(xs, sep, k));
    }
  }

  /** Cut `s` at every `sep`. */
  function SplitOn(s: string, sep: char): (r: seq<string>)
    ensures |r| > 0
    decreases |s|
  {
    var i := IndexOf(s, sep);
    if i < 0 then [s] else [s[..i]] + SplitOn(s[i + 1..], sep)
  }

  /** Splitting a string that starts with a separator-free part cuts that part off first. */
  lemma SplitOnFirst(a: string, rest: string, sep: char)
    requires sep !in a
    ensures SplitOn(a + [sep] + rest, sep) == [a] + SplitOn(rest, sep)
  {
    var s := a + [sep] + rest;
    forall j | 0 <= j < |a| ensures s[j] != sep {
      assert s[j] == a[j];
    }
    IndexOfIs(s, sep, |a|);
    assert s[..|a|] == a;
    assert s[|a| + 1..] == rest;
  }

  /** Splitting at the separator undoes joining, when no part contains the separator. */
  lemma {:induction false} SplitJoin(parts: seq<string>, sep: char)
    requires |parts| > 0
    requires forall i :: 0 <= i < |parts| ==> sep !in parts[i]
    ensures SplitOn(Join(parts, sep), sep) == parts
  {
    if |parts| > 1 {
      SplitJoin(parts[1..], sep);
      SplitOnFirst(parts[0], Join(parts[1..], sep), sep);
      assert parts == [parts[0]] + parts[1..];
    }
  }

  /** The number of occurrences of `c` in `s`. */
  function Count(s: string, c: char): nat {
    if |s| == 0 then 0 else (if s[0] == c then 1 else 0) + Count(s[1..], c)
  }

  lemma {:induction false} CountConcat(a: string, b: string, c: char)
    ensures Count(a + b, c) == Count(a, c) + Count(b, c)
  {
    if |a| > 0 {
      assert (a + b)[1..] == a[1..] + b;
      CountConcat(a[1..], b, c);
    } else {
      assert a + b == b;
    }
  }

  lemma {:induction false} CountAbsent(s: string, c: char)
    requires c !in s
    ensures Count(s, c) == 0
  {
    if |s| > 0 {
      assert forall j :: 0 <= j < |s| - 1 ==> s[1..][j] == s[j + 1];
      CountAbsent(s[1..], c);
    }
  }

  /** A join of n separator-free parts holds exactly n - 1 separators. */
  lemma {:induction false} CountJoin(parts: seq<string>, sep: char)
    requires |parts| > 0
    requires forall i :: 0 <= i < |parts| ==> sep !in parts[i]
    ensures Count(Join(parts, sep), sep) == |parts| - 1
  {
    CountAbsent(parts[0], sep);
    if |parts| > 1 {
      CountJoin(parts[1..], sep);
      CountConcat(parts[0], [sep], sep);
      CountConcat(parts[0] + [sep], Join(parts[1..], sep), sep);
    }
  }
}
