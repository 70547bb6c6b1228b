/** The few string operations of Python the core relies on: `sub in s`,
    `str.replace`, decimal numerals read and written, and string
    comparison. */
module Strings {
  import opened Base


  predicate StartsWith(s: string, prefix: string)
  {
    |prefix| <= |s| && s[..|prefix|] == prefix
  }

  /** Python's `sub in s`. */
  predicate Contains(s: string, sub: string)
    decreases |s|
  {
    StartsWith(s, sub) || (|s| > 0 && Contains(s[1..], sub))
  }

  /** Python's `s.replace(pat, rep)`: every occurrence of `pat`, found left to
      right without overlap, is replaced by `rep`. */
  function ReplaceAll(s: string, pat: string, rep: string): string
    requires |pat| > 0
    decreases |s|
  {
    if |s| < |pat| then s
    else if s[..|pat|] == pat then rep + ReplaceAll(s[|pat|..], pat, rep)
    else [s[0]] + ReplaceAll(s[1..], pat, rep)
  }

  /** A string without an occurrence of the pattern is left as it is. */
  lemma {:induction false} ReplaceAbsent(s: string, pat: string, rep: string)
    requires |pat| > 0 && !Contains(s, pat)
    ensures ReplaceAll(s, pat, rep) == s
    decreases |s|
  {
    if |s| >= |pat| {
      assert s[..|pat|] != pat;
      ReplaceAbsent(s[1..], pat, rep);
      assert [s[0]] + s[1..] == s;
    }
  }

  /** Replacing never introduces a character that neither the input nor the
      replacement has: any class of characters closed under both is kept. */
  lemma {:induction false} ReplaceKeepsClass(s: string, pat: string, rep: string, ok: char -> bool)
    requires |pat| > 0
    requires forall i :: 0 <= i < |s| ==> ok(s[i])
    requires forall i :: 0 <= i < |rep| ==> ok(rep[i])
    ensures forall i :: 0 <= i < |ReplaceAll(s, pat, rep)| ==> ok(ReplaceAll(s, pat, rep)[i])
    decreases |s|
  {
    if |s| < |pat| {
    } else if s[..|pat|] == pat {
      ReplaceKeepsClass(s[|pat|..], pat, rep, ok);
    } else {
      ReplaceKeepsClass(s[1..], pat, rep, ok);
    }
  }

  /** Replacing a one-character pattern by a text without that character
      removes every occurrence of it. */
  lemma {:induction false} ReplaceRemovesChar(s: string, c: char, rep: string)
    requires c !in rep
    ensures c !in ReplaceAll(s, [c], rep)
    decreases |s|
  {
    if |s| >= 1 {
      ReplaceRemovesChar(s[1..], c, rep);
      if s[..1] != [c] {
        assert s[0] != c;
      }
    }
  }

  /** A one-character pattern is replaced piecewise: no occurrence spans the
      seam of a concatenation. */
  lemma {:induction false} ReplaceCharAppend(x: string, y: string, c: char, rep: string)
    ensures ReplaceAll(x + y, [c], rep) == ReplaceAll(x, [c], rep) + ReplaceAll(y, [c], rep)
    decreases |x|
  {
    if x == [] {
      assert x + y == y;
    } else {
      assert (x + y)[1..] == x[1..] + y;
      assert (x + y)[..1] == x[..1];
      ReplaceCharAppend(x[1..], y, c, rep);
    }
  }

  /** A string without the character is left as it is. */
  lemma {:induction false} ReplaceCharAbsent(s: string, c: char, rep: string)
    requires c !in s
    ensures ReplaceAll(s, [c], rep) == s
    decreases |s|
  {
    if |s| >= 1 {
      assert s[..1] != [c] by { assert s[0] in s; }
      ReplaceCharAbsent(s[1..], c, rep);
      assert [s[0]] + s[1..] == s;
    }
  }

  /** Replacing never brings in a character that neither the string nor the
      replacement holds. */
  lemma ReplaceKeepsAbsent(s: string, pat: string, rep: string, c: char)
    requires |pat| > 0 && c !in s && c !in rep
    ensures c !in ReplaceAll(s, pat, rep)
  {
    ReplaceKeepsClass(s, pat, rep, x => x != c);
  }

  /** A one-character replacement around a single separator. */
  lemma ReplaceAround(x: string, m: char, y: string, c: char, rep: string)
    requires c !in x && c !in y
    ensures ReplaceAll(x + [m] + y, [c], rep) == x + (if m == c then rep else [m]) + y
  {
    ReplaceCharAppend(x + [m], y, c, rep);
    ReplaceCharAppend(x, [m], c, rep);
    ReplaceCharAbsent(x, c, rep);
    ReplaceCharAbsent(y, c, rep);
    assert ReplaceAll([m], [c], rep) == if m == c then rep else [m] by {
      assert [m][..1] == [m] && [m][1..] == [];
    }
  }

  /** Python's `"".join(ch for ch in s if keep(ch))`: the characters that
      pass, in order. */
  function Filter(s: string, keep: char -> bool): (r: string)
    ensures |r| <= |s|
    ensures forall i :: 0 <= i < |r| ==> keep(r[i])
    decreases |s|
  {
    if s == [] then []
    else (if keep(s[0]) then [s[0]] else []) + Filter(s[1..], keep)
  }

  /** Every character that passes is kept as often as it occurs, and
      nothing else appears. */
  lemma {:induction false} FilterCounts(s: string, keep: char -> bool)
    ensures forall c :: keep(c) ==> multiset(Filter(s, keep))[c] == multiset(s)[c]
    ensures forall c :: !keep(c) ==> multiset(Filter(s, keep))[c] == 0
    decreases |s|
  {
    if s != [] {
      FilterCounts(s[1..], keep);
      assert s == [s[0]] + s[1..];
    }
  }

  /** Filtering a string whose every character passes changes nothing. */
  lemma {:induction false} FilterKeepsAll(s: string, keep: char -> bool)
    requires forall i :: 0 <= i < |s| ==> keep(s[i])
    ensures Filter(s, keep) == s
    decreases |s|
  {
    if s != [] {
      FilterKeepsAll(s[1..], keep);
      assert [s[0]] + s[1..] == s;
    }
  }

  /** Two tests that agree on every character of the string filter it alike. */
  lemma {:induction false} FilterSame(s: string, k1: char -> bool, k2: char -> bool)
    requires forall i :: 0 <= i < |s| ==> k1(s[i]) == k2(s[i])
    ensures Filter(s, k1) == Filter(s, k2)
    decreases |s|
  {
    if s != [] {
      FilterSame(s[1..], k1, k2);
    }
  }

  predicate IsDigit(c: char)
  {
    '0' <= c <= '9'
  }

  predicate AllDigits(s: string)
  {
    forall i :: 0 <= i < |s| ==> IsDigit(s[i])
  }

  /** The integer a string of decimal digits spells. */
  function DigitsValue(s: string): nat
    requires AllDigits(s)
  {
    if s == [] then 0 else DigitsValue(s[..|s| - 1]) * 10 + (s[|s| - 1] as int - '0' as int)
  }

  function Pow10(n: nat): (r: nat)
    ensures r >= 1
  {
    if n == 0 then 1 else 10 * Pow10(n - 1)
  }

  /** The value of the digits after a decimal point. */
  function Fraction(s: string): (r: real)
    requires AllDigits(s)
    ensures 0.0 <= r
  {
    DigitsValue(s) as real / Pow10(|s|) as real
  }

  /** Position of the first occurrence of a character. */
  function IndexOf(s: string, c: char): (k: nat)
    requires c in s
    ensures k < |s| && s[k] == c && c !in s[..k]
  {
    if s[0] == c then 0
    else
      assert c in s[1..] by { assert s == [s[0]] + s[1..]; }
      assert s[..1 + IndexOf(s[1..], c)] == [s[0]] + s[1..][..IndexOf(s[1..], c)];
      1 + IndexOf(s[1..], c)
  }

  /** An unsigned decimal numeral: digits with at most one decimal point
      and at least one digit. Both `pd.to_numeric` and Python's `float()`
      read such a string this way; every other string is None. */
  function ParseUnsigned(s: string): (r: Option<real>)
    ensures r.Some? ==> r.value >= 0.0
  {
    if '.' !in s then
      (if s != [] && AllDigits(s) then Some(DigitsValue(s) as real) else None)
    else
      var k := IndexOf(s, '.');
      var whole, frac := s[..k], s[k + 1..];
      if AllDigits(whole) && AllDigits(frac) && |whole| + |frac| > 0
      then Some(DigitsValue(whole) as real + Fraction(frac))
      else None
  }

  lemma {:induction false} IndexAfter(a: string, b: string, c: char)
    requires c !in a
    ensures IndexOf(a + [c] + b, c) == |a|
    decreases |a|
  {
    if a != [] {
      assert (a + [c] + b)[1..] == a[1..] + [c] + b;
      assert a[0] in a;
      IndexAfter(a[1..], b, c);
    }
  }

  /** Digits alone: their integer value. */
  lemma UnsignedDigits(t: string)
    requires AllDigits(t) && t != []
    ensures ParseUnsigned(t) == Some(DigitsValue(t) as real)
  {
    assert forall i :: 0 <= i < |t| ==> t[i] != '.';
  }

  /** Digits, a point, digits: the whole part plus the fraction. */
  lemma UnsignedPoint(a: string, b: string)
    requires AllDigits(a) && AllDigits(b) && a != []
    ensures ParseUnsigned(a + "." + b) == Some(DigitsValue(a) as real + Fraction(b))
  {
    var s := a + "." + b;
    assert forall i :: 0 <= i < |a| ==> a[i] != '.';
    IndexAfter(a, b, '.');
    assert s == a + ['.'] + b;
    assert s[..|a|] == a && s[|a| + 1..] == b;
  }

  /** Python's `str(n)` for a natural number: its decimal digits. */
  function NatStr(n: nat): (r: string)
    ensures |r| >= 1 && (|r| == 1 <==> n < 10)
    ensures forall i :: 0 <= i < |r| ==> '0' <= r[i] <= '9'
  {
    if n < 10 then [Digit(n)] else NatStr(n / 10) + [Digit(n % 10)]
  }

  function Digit(d: nat): (c: char)
    requires d < 10
    ensures '0' <= c <= '9'
  {
    (d + '0' as int) as char
  }

  /** Distinct numbers have distinct decimal renderings, so `lag1`, `lag2`, ...
      are distinct column names. */
  lemma {:induction false} NatStrInjective(a: nat, b: nat)
    requires NatStr(a) == NatStr(b)
    ensures a == b
    decreases a
  {
    var s := NatStr(a);
    if a < 10 && b < 10 {
      assert Digit(a) == s[0] == Digit(b);
    } else if a >= 10 && b >= 10 {
      assert Digit(a % 10) == s[|s| - 1] == Digit(b % 10);
      assert NatStr(a / 10) == s[..|s| - 1] == NatStr(b / 10);
      NatStrInjective(a / 10, b / 10);
    }
  }

  /** Reading back what NatStr writes gives the number. */
  lemma {:induction false} NatStrValue(n: nat)
    ensures AllDigits(NatStr(n)) && DigitsValue(NatStr(n)) == n
    decreases n
  {
    var s := NatStr(n);
    if n >= 10 {
      NatStrValue(n / 10);
      assert s[..|s| - 1] == NatStr(n / 10);
      assert s[|s| - 1] == Digit(n % 10);
    }
  }

  /** Python's `str(n)` for an integer: a minus sign before the digits of a
      negative number. */
  function IntStr(n: int): (r: string)
    ensures AllDigits(r) <==> n >= 0
    ensures n < 0 ==> r[0] == '-' && r[1..] == NatStr(-n)
  {
    if n < 0 then
      assert !IsDigit(("-" + NatStr(-n))[0]);
      "-" + NatStr(-n)
    else NatStr(n)
  }

  /** Python's `a <= b` on strings: lexicographic by code point, a proper
      prefix first. */
  predicate LexLe(a: string, b: string)
    decreases |a|
  {
    a == [] || (b != [] && (a[0] < b[0] || (a[0] == b[0] && LexLe(a[1..], b[1..]))))
  }

  lemma {:induction false} LexLeReflexive(a: string)
    ensures LexLe(a, a)
    decreases |a|
  {
    if a != [] {
      LexLeReflexive(a[1..]);
    }
  }

  lemma {:induction false} LexLeTotal(a: string, b: string)
    ensures LexLe(a, b) || LexLe(b, a)
    decreases |a|
  {
    if a != [] && b != [] && a[0] == b[0] {
      LexLeTotal(a[1..], b[1..]);
    }
  }

  lemma {:induction false} LexLeTransitive(a: string, b: string, c: string)
    requires LexLe(a, b) && LexLe(b, c)
    ensures LexLe(a, c)
    decreases |a|
  {
    if a != [] && a[0] == b[0] && b[0] == c[0] {
      LexLeTransitive(a[1..], b[1..], c[1..]);
    }
  }

  lemma {:induction false} LexLeAntisymmetric(a: string, b: string)
    requires LexLe(a, b) && LexLe(b, a)
    ensures a == b
    decreases |a|
  {
    if a != [] {
      LexLeAntisymmetric(a[1..], b[1..]);
      assert a == [a[0]] + a[1..];
      assert b == [b[0]] + b[1..];
    }
  }
}
