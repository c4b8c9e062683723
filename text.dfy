/**
 * Text building blocks the plan service relies on: the decimal rendering a
 * template literal gives an integer (`${n}`), and `Array.prototype.join`.
 */
module Text {
  import opened Wrappers

  predicate IsDigit(c: char) {
    '0' <= c <= '9'
  }

  predicate AllDigits(s: string) {
    forall i :: 0 <= i < |s| ==> IsDigit(s[i])
  }

  function DigitChar(d: nat): (c: char)
    requires d < 10
    ensures IsDigit(c) && c as int - '0' as int == d
  {
    ('0' as int + d) as char
  }

  /** Decimal digits of `n`, most significant first, without leading zeros. */
  function NatToString(n: nat): (s: string)
    ensures 1 <= |s| && AllDigits(s)
    ensures s[0] == '0' ==> n == 0
    decreases n
  {
    if n < 10 then [DigitChar(n)] else NatToString(n / 10) + [DigitChar(n % 10)]
  }

  /** How JavaScript writes an integer-valued number inside a template literal. */
  function IntToString(n: int): (s: string)
    ensures 1 <= |s|
    ensures n < 0 <==> s[0] == '-'
    ensures AllDigits(if n < 0 then s[1..] else s)
  {
    if n < 0 then "-" + NatToString(-n) else NatToString(n)
  }

  /** The value a string of decimal digits denotes. */
  function DigitsValue(s: string): nat
    requires AllDigits(s)
  {
    if s == [] then 0
    else 10 * DigitsValue(s[..|s| - 1]) + (s[|s| - 1] as int - '0' as int)
  }

  /** Reads back what IntToString writes; None for anything else. */
  function ParseInt(s: string): (r: Option<int>)
  {
    if |s| >= 2 && s[0] == '-' && AllDigits(s[1..]) then
      var magnitude: int := DigitsValue(s[1..]);
      Some(-magnitude)
    else if |s| >= 1 && AllDigits(s) then Some(DigitsValue(s))
    else None
  }

  lemma {:induction false} NatToStringValue(n: nat)
    ensures DigitsValue(NatToString(n)) == n
    decreases n
  {
    var s := NatToString(n);
    if n >= 10 {
      NatToStringValue(n / 10);
      assert s[..|s| - 1] == NatToString(n / 10);
    }
  }

  /** Reading back the rendering of any integer gives that integer. */
  lemma IntToStringRoundTrip(n: int)
    ensures ParseInt(IntToString(n)) == Some(n)
  {
    var s := IntToString(n);
    if n < 0 {
      assert s[1..] == NatToString(-n);
      NatToStringValue(-n);
    } else {
      assert s == NatToString(n) && s[0] != '-';
      NatToStringValue(n);
    }
  }

  /** Different integers are rendered as different strings. */
  lemma IntToStringInjective(a: int, b: int)
    requires IntToString(a) == IntToString(b)
    ensures a == b
  {
    IntToStringRoundTrip(a);
    IntToStringRoundTrip(b);
  }

  /** `parts.join(sep)`: the parts in order with `sep` between neighbours. */
  function Join(parts: seq<string>, sep: string): (r: string)
    ensures parts == [] ==> r == ""
    ensures parts != [] ==> |parts[0]| <= |r| && |parts[|parts| - 1]| <= |r|
  {
    if |parts| == 0 then ""
    else if |parts| == 1 then parts[0]
    else Join(parts[..|parts| - 1], sep) + sep + parts[|parts| - 1]
  }

  function TotalLength(parts: seq<string>): nat
  {
    if parts == [] then 0 else TotalLength(parts[..|parts| - 1]) + |parts[|parts| - 1]|
  }

  /** A join is as long as its parts plus one separator per gap. */
  lemma {:induction false} JoinLength(parts: seq<string>, sep: string)
    requires parts != []
    ensures |Join(parts, sep)| == TotalLength(parts) + |sep| * (|parts| - 1)
  {
    if |parts| > 1 {
      JoinLength(parts[..|parts| - 1], sep);
    }
  }

  /** A join of a non-empty list begins with its first part. */
  lemma {:induction false} JoinStartsWithFirst(parts: seq<string>, sep: string)
    requires parts != []
    ensures |parts[0]| <= |Join(parts, sep)| && Join(parts, sep)[..|parts[0]|] == parts[0]
  {
    if |parts| > 1 {
      var init := parts[..|parts| - 1];
      JoinStartsWithFirst(init, sep);
      assert init[0] == parts[0];
      var j := Join(init, sep);
      assert Join(parts, sep)[..|parts[0]|] == j[..|parts[0]|];
    }
  }

  /** A join of a non-empty list ends with its last part. */
  lemma JoinEndsWithLast(parts: seq<string>, sep: string)
    requires parts != []
    ensures Join(parts, sep)[|Join(parts, sep)| - |parts[|parts| - 1]|..] == parts[|parts| - 1]
  {
    if |parts| > 1 {
      var j := Join(parts[..|parts| - 1], sep) + sep;
      assert Join(parts, sep) == j + parts[|parts| - 1];
    }
  }

  /** Joining two non-empty lists is joining each and putting one separator between. */
  lemma {:induction false} JoinConcat(a: seq<string>, b: seq<string>, sep: string)
    requires a != [] && b != []
    ensures Join(a + b, sep) == Join(a, sep) + sep + Join(b, sep)
    decreases |b|
  {
    var ab := a + b;
    assert ab[|ab| - 1] == b[|b| - 1];
    if |b| == 1 {
      assert ab[..|ab| - 1] == a;
      assert Join(ab, sep) == Join(a, sep) + sep + b[0];
    } else {
      var b' := b[..|b| - 1];
      assert ab[..|ab| - 1] == a + b';
      assert Join(ab, sep) == Join(a + b', sep) + sep + b[|b| - 1];
      JoinConcat(a, b', sep);
      assert Join(b, sep) == Join(b', sep) + sep + b[|b| - 1];
    }
  }

  /** A run of digits followed by a non-digit splits only one way. */
  lemma DigitsThenOther(s1: string, r1: string, s2: string, r2: string)
    requires AllDigits(s1) && AllDigits(s2)
    requires r1 != [] && r2 != [] && !IsDigit(r1[0]) && !IsDigit(r2[0])
    requires s1 + r1 == s2 + r2
    ensures s1 == s2 && r1 == r2
  {
    var m := if |s1| < |s2| then |s1| else |s2|;
    assert IsDigit((s1 + r1)[m]) <==> |s1| > m;
    assert IsDigit((s2 + r2)[m]) <==> |s2| > m;
    assert s1 == (s1 + r1)[..m] == (s2 + r2)[..m] == s2;
    assert r1 == (s1 + r1)[m..] == (s2 + r2)[m..] == r2;
  }

  /** Text of the form prefix, digits, infix, rest determines its digits and its rest when the infix starts with a non-digit. */
  lemma NumberBetweenInjective(pre: string, s1: string, mid: string, x1: string, s2: string, x2: string)
    requires AllDigits(s1) && AllDigits(s2)
    requires mid != [] && !IsDigit(mid[0])
    requires pre + s1 + mid + x1 == pre + s2 + mid + x2
    ensures s1 == s2 && x1 == x2
  {
    var t1, t2 := pre + s1 + mid + x1, pre + s2 + mid + x2;
    assert t1[|pre|..] == s1 + (mid + x1);
    assert t2[|pre|..] == s2 + (mid + x2);
    DigitsThenOther(s1, mid + x1, s2, mid + x2);
    assert x1 == (mid + x1)[|mid|..];
    assert x2 == (mid + x2)[|mid|..];
  }

  /** `t` occurs in `s` as a contiguous piece. */
  predicate Contains(s: string, t: string) {
    exists k :: 0 <= k <= |s| && OccursAt(s, t, k)
  }

  predicate OccursAt(s: string, t: string, k: int) {
    0 <= k <= |s| - |t| && s[k..k + |t|] == t
  }

  /** The first, third and fifth of six concatenated pieces each occur in the whole. */
  lemma ContainsPieces(a: string, b: string, c: string, d: string, e: string, f: string)
    ensures Contains(a + b + c + d + e + f, a)
    ensures Contains(a + b + c + d + e + f, c)
    ensures Contains(a + b + c + d + e + f, e)
  {
    var s := a + b + c + d + e + f;
    assert OccursAt(s, a, 0);
    assert OccursAt(s, c, |a| + |b|);
    assert OccursAt(s, e, |a| + |b| + |c| + |d|);
  }
}
