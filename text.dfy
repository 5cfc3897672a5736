/**
 * String operations the migrator builds its SQL from: `join`, literal `gsub`,
 * backtick quoting and the decimal rendering of integers (`"#{n}"`).
 * Strings are `seq<char>`; matching is exact, character by character.
 */
module Text {

  predicate StartsWith(s: string, p: string) {
    |p| <= |s| && s[..|p|] == p
  }

  predicate EndsIn(s: string, t: string) {
    |t| <= |s| && s[|s| - |t|..] == t
  }

  /** A text framed by a head and a tail starts with the head, ends with the
      tail, and holds the middle between them. */
  lemma Framed(head: string, middle: string, tail: string)
    ensures var s := head + middle + tail;
      StartsWith(s, head) && EndsIn(s, tail) && s[|head|..|s| - |tail|] == middle
  {
    var s := head + middle + tail;
    assert s[..|head|] == head;
    assert s[|s| - |tail|..] == tail;
    assert s[|head|..|s| - |tail|] == middle;
  }

  /** `p` occurs somewhere in `s`. */
  predicate Occurs(s: string, p: string)
    decreases |s|
  {
    StartsWith(s, p) || (|s| > 0 && Occurs(s[1..], p))
  }

  /** MySQL identifier quoting, as the source writes it: "`#{name}`". */
  function Backtick(name: string): string {
    "`" + name + "`"
  }

  /** `parts.join(sep)`. */
  function Join(parts: seq<string>, sep: string): string
    decreases |parts|
  {
    if |parts| == 0 then ""
    else if |parts| == 1 then parts[0]
    else parts[0] + sep + Join(parts[1..], sep)
  }

  /** A character found in no part and not in the separator is not in the joined text. */
  lemma {:induction false} JoinAvoids(parts: seq<string>, sep: string, c: char)
    requires forall i :: 0 <= i < |parts| ==> c !in parts[i]
    requires c !in sep
    ensures c !in Join(parts, sep)
    decreases |parts|
  {
    if |parts| > 1 {
      JoinAvoids(parts[1..], sep, c);
    }
  }

  /** `s.gsub(p, r)` for a literal, non-empty pattern: a left-to-right scan that
      replaces every non-overlapping occurrence of `p`. */
  function ReplaceAll(s: string, p: string, r: string): string
    requires p != []
    decreases |s|
  {
    if |s| < |p| then s
    else if s[..|p|] == p then r + ReplaceAll(s[|p|..], p, r)
    else [s[0]] + ReplaceAll(s[1..], p, r)
  }

  lemma OccursLength(s: string, p: string)
    requires Occurs(s, p)
    ensures |p| <= |s|
  {
  }

  lemma {:induction false} OccursInSuffix(s: string, k: nat, q: string)
    requires k <= |s|
    requires Occurs(s[k..], q)
    ensures Occurs(s, q)
    decreases k
  {
    if k > 0 {
      assert s[1..][k - 1..] == s[k..];
      OccursInSuffix(s[1..], k - 1, q);
    }
  }

  /** An occurrence of `q` cannot start inside a prefix that lacks `q`'s first character. */
  lemma {:induction false} OccursPastPrefix(x: string, y: string, q: string)
    requires q != [] && q[0] !in x
    requires Occurs(x + y, q)
    ensures Occurs(y, q)
    decreases |x|
  {
    if x != [] {
      assert (x + y)[0] == x[0];
      assert (x + y)[1..] == x[1..] + y;
      OccursPastPrefix(x[1..], y, q);
    } else {
      assert x + y == y;
    }
  }

  /** Text before the first character of the pattern passes through `gsub` untouched. */
  lemma {:induction false} ReplaceAllSkips(a: string, b: string, p: string, r: string)
    requires p != [] && p[0] !in a
    ensures ReplaceAll(a + b, p, r) == a + ReplaceAll(b, p, r)
    decreases |a|
  {
    if a == [] {
      assert a + b == b;
    } else {
      var s := a + b;
      if |s| >= |p| {
        assert s[0] == a[0] && s[1..] == a[1..] + b;
        assert s[..|p|] != p by { assert s[..|p|][0] == a[0]; }
        assert ReplaceAll(s, p, r) == [a[0]] + ReplaceAll(a[1..] + b, p, r);
        ReplaceAllSkips(a[1..], b, p, r);
        assert a == [a[0]] + a[1..];
      } else {
        assert |b| <= |s| < |p|;
        assert ReplaceAll(b, p, r) == b;
      }
    }
  }

  /** `gsub` turns one occurrence standing after placeholder-free text into the replacement. */
  lemma ReplaceAllAt(a: string, b: string, p: string, r: string)
    requires p != [] && p[0] !in a
    ensures ReplaceAll(a + p + b, p, r) == a + r + ReplaceAll(b, p, r)
  {
    assert a + p + b == a + (p + b);
    ReplaceAllSkips(a, p + b, p, r);
    assert (p + b)[..|p|] == p;
    assert (p + b)[|p|..] == b;
  }

  /** Text without the pattern is left unchanged. */
  lemma {:induction false} ReplaceAllAbsent(s: string, p: string, r: string)
    requires p != [] && !Occurs(s, p)
    ensures ReplaceAll(s, p, r) == s
    decreases |s|
  {
    if |s| >= |p| {
      ReplaceAllAbsent(s[1..], p, r);
      assert [s[0]] + s[1..] == s;
    }
  }

  /** If the rewritten text starts with `w`, so did the original, provided the
      replacement's first character is foreign to `w`. */
  lemma {:induction false} StartsWithBack(s: string, p: string, r: string, w: string)
    requires p != [] && r != [] && r[0] !in w
    ensures StartsWith(ReplaceAll(s, p, r), w) ==> StartsWith(s, w)
    decreases |s|
  {
    var out := ReplaceAll(s, p, r);
    if w == [] || |s| < |p| {
    } else if s[..|p|] == p {
      assert out == r + ReplaceAll(s[|p|..], p, r);
      assert out[0] == r[0];
    } else {
      var x := ReplaceAll(s[1..], p, r);
      assert out == [s[0]] + x;
      StartsWithBack(s[1..], p, r, w[1..]);
      if StartsWith(out, w) {
        assert out[..|w|][0] == w[0] == s[0];
        assert x[..|w| - 1] == out[..|w|][1..] == w[1..];
        assert s[..|w|] == [s[0]] + s[1..][..|w| - 1];
      }
    }
  }

  /** After `gsub(p, r)` no `p` is left, when `r` cannot take part in an occurrence of `p`. */
  lemma {:induction false} ReplaceAllClears(s: string, p: string, r: string)
    requires p != [] && r != [] && p[0] !in r && r[0] !in p
    ensures !Occurs(ReplaceAll(s, p, r), p)
    decreases |s|
  {
    var out := ReplaceAll(s, p, r);
    if |s| < |p| {
      if Occurs(out, p) { OccursLength(out, p); }
    } else if s[..|p|] == p {
      ReplaceAllClears(s[|p|..], p, r);
      if Occurs(out, p) { OccursPastPrefix(r, ReplaceAll(s[|p|..], p, r), p); }
    } else {
      var x := ReplaceAll(s[1..], p, r);
      ReplaceAllClears(s[1..], p, r);
      assert out == [s[0]] + x;
      assert out[1..] == x;
      if StartsWith(out, p) { StartsWithBack(s, p, r, p); }
    }
  }

  /** `gsub(p, r)` creates no new occurrence of `q` when `r` cannot take part in one. */
  lemma {:induction false} ReplaceAllNoNew(s: string, p: string, r: string, q: string)
    requires p != [] && r != [] && q != [] && q[0] !in r && r[0] !in q
    requires Occurs(ReplaceAll(s, p, r), q)
    ensures Occurs(s, q)
    decreases |s|
  {
    var out := ReplaceAll(s, p, r);
    if |s| < |p| {
    } else if s[..|p|] == p {
      OccursPastPrefix(r, ReplaceAll(s[|p|..], p, r), q);
      ReplaceAllNoNew(s[|p|..], p, r, q);
      OccursInSuffix(s, |p|, q);
    } else {
      var x := ReplaceAll(s[1..], p, r);
      assert out == [s[0]] + x;
      assert out[1..] == x;
      if StartsWith(out, q) {
        StartsWithBack(s, p, r, q);
      } else {
        ReplaceAllNoNew(s[1..], p, r, q);
      }
    }
  }

  // Decimal rendering of integers, as `"#{n}"` and `to_s` produce it.

  predicate IsDigit(c: char) {
    '0' <= c <= '9'
  }

  predicate AllDigits(s: string) {
    forall i :: 0 <= i < |s| ==> IsDigit(s[i])
  }

  function DigitChar(d: nat): (c: char)
    requires d < 10
    ensures IsDigit(c) && c as int - '0' as int == d
  {
    "0123456789"[d]
  }

  /** The decimal digits of `n`, most significant first, without leading zeros. */
  function NatToString(n: nat): (r: string)
    ensures |r| > 0 && AllDigits(r)
    decreases n
  {
    if n < 10 then [DigitChar(n)] else NatToString(n / 10) + [DigitChar(n % 10)]
  }

  function ParseNat(s: string): nat
    requires |s| > 0 && AllDigits(s)
    decreases |s|
  {
    if |s| == 1 then s[0] as int - '0' as int
    else 10 * ParseNat(s[..|s| - 1]) + (s[|s| - 1] as int - '0' as int)
  }

  /** Reading the digits back gives the number: the rendering loses nothing. */
  lemma {:induction false} ParseNatToString(n: nat)
    ensures ParseNat(NatToString(n)) == n
    decreases n
  {
    if n >= 10 {
      var s := NatToString(n);
      assert s == NatToString(n / 10) + [DigitChar(n % 10)];
      assert s[..|s| - 1] == NatToString(n / 10);
      ParseNatToString(n / 10);
    }
  }

  function IntToString(i: int): string
  {
    if i < 0 then "-" + NatToString(-i) else NatToString(i)
  }

  lemma NegativeRendering(i: int)
    requires i < 0
    ensures IntToString(i)[0] == '-' && IntToString(i)[1..] == NatToString(-i)
  {
  }

  /** Different integers render differently. */
  lemma IntToStringInjective(a: int, b: int)
    requires IntToString(a) == IntToString(b)
    ensures a == b
  {
    if a < 0 && b < 0 {
      NegativeRendering(a);
      NegativeRendering(b);
      NatToStringInjective(-a, -b);
    } else if a >= 0 && b >= 0 {
      NatToStringInjective(a, b);
    } else if a < 0 {
      NegativeRendering(a);
      NotNegativeRendering(b);
    } else {
      NegativeRendering(b);
      NotNegativeRendering(a);
    }
  }

  lemma NatToStringInjective(m: nat, n: nat)
    requires NatToString(m) == NatToString(n)
    ensures m == n
  {
    ParseNatToString(m);
    ParseNatToString(n);
  }

  lemma NotNegativeRendering(i: int)
    requires i >= 0
    ensures IntToString(i)[0] != '-'
  {
    assert IsDigit(NatToString(i)[0]);
  }
}
