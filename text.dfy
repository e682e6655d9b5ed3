/**
 * Strings as the engine uses them: ASCII case mapping, substring search
 * (`String.prototype.includes`), decimal digits and number rendering.
 */
module Text {

  /** ASCII lower-casing of one character. */
  function LowerChar(c: char): char
  {
    if 'A' <= c <= 'Z' then (c as int + 32) as char else c
  }

  /** ASCII upper-casing of one character. */
  function UpperChar(c: char): char
  {
    if 'a' <= c <= 'z' then (c as int - 32) as char else c
  }

  /** `s.toLowerCase()`, restricted to ASCII. */
  function Lower(s: string): (r: string)
    ensures |r| == |s|
    ensures forall i :: 0 <= i < |s| ==> r[i] == LowerChar(s[i])
  {
    seq(|s|, i requires 0 <= i < |s| => LowerChar(s[i]))
  }

  /** `s.toUpperCase()`, restricted to ASCII. */
  function Upper(s: string): (r: string)
    ensures |r| == |s|
    ensures forall i :: 0 <= i < |s| ==> r[i] == UpperChar(s[i])
  {
    seq(|s|, i requires 0 <= i < |s| => UpperChar(s[i]))
  }

  /** Reference meaning of `t.includes(p)`: `p` occurs in `t` at some offset. */
  predicate Contains(t: string, p: string)
  {
    exists j :: 0 <= j <= |t| && OccursAt(t, p, j)
  }

  /** `p` occurs in `t` starting at offset `j`. */
  predicate OccursAt(t: string, p: string, j: nat)
  {
    j + |p| <= |t| && t[j..j + |p|] == p
  }

  /** `p[k..]` occurs in `s` at offset `i + k`, comparing `s` lower-cased. */
  predicate MatchesAt(s: string, p: string, i: nat, k: nat)
    decreases |p| - k
  {
    k >= |p| || (i + k < |s| && LowerChar(s[i + k]) == p[k] && MatchesAt(s, p, i, k + 1))
  }

  /** Some offset `j >= i` has `p` occurring in lower-cased `s`. */
  predicate IncludesFrom(s: string, p: string, i: nat)
    decreases |s| - i
  {
    i + |p| <= |s| && (MatchesAt(s, p, i, 0) || IncludesFrom(s, p, i + 1))
  }

  /**
   * `s.toLowerCase().includes(p)`, as a left-to-right scan over `s`;
   * `IncludesIsContains` relates it to the reference definition.
   */
  predicate Includes(s: string, p: string)
  {
    IncludesFrom(s, p, 0)
  }

  /** `s.toLowerCase() === p`. */
  predicate EqualsIgnoringCase(s: string, p: string)
  {
    |s| == |p| && MatchesAt(s, p, 0, 0)
  }

  lemma {:induction false} MatchesAtMeaning(s: string, p: string, i: nat, k: nat)
    requires k <= |p|
    ensures MatchesAt(s, p, i, k) <==>
      (k == |p| || i + |p| <= |s|) && forall m :: k <= m < |p| ==> i + m < |s| && LowerChar(s[i + m]) == p[m]
    decreases |p| - k
  {
    if k < |p| {
      MatchesAtMeaning(s, p, i, k + 1);
    }
  }

  lemma MatchesAtIsSlice(s: string, p: string, i: nat)
    requires i <= |s|
    ensures MatchesAt(s, p, i, 0) <==> OccursAt(Lower(s), p, i)
  {
    MatchesAtMeaning(s, p, i, 0);
    if i + |p| <= |s| {
      var w := Lower(s)[i..i + |p|];
      assert forall m :: 0 <= m < |p| ==> w[m] == LowerChar(s[i + m]);
      if MatchesAt(s, p, i, 0) {
        assert forall m :: 0 <= m < |p| ==> w[m] == p[m];
        assert w == p;
        assert OccursAt(Lower(s), p, i);
      }
      if OccursAt(Lower(s), p, i) {
        assert w == p;
        assert forall m :: 0 <= m < |p| ==> i + m < |s| && LowerChar(s[i + m]) == p[m];
        assert MatchesAt(s, p, i, 0);
      }
    }
  }

  lemma {:induction false} IncludesFromMeaning(s: string, p: string, i: nat)
    ensures IncludesFrom(s, p, i) <==> exists j :: i <= j <= |s| - |p| && MatchesAt(s, p, j, 0)
    decreases |s| - i
  {
    if i + |p| <= |s| {
      IncludesFromMeaning(s, p, i + 1);
      if MatchesAt(s, p, i, 0) {
        assert i <= i <= |s| - |p| && MatchesAt(s, p, i, 0);
        assert IncludesFrom(s, p, i);
        assert exists j :: i <= j <= |s| - |p| && MatchesAt(s, p, j, 0);
      } else {
        assert IncludesFrom(s, p, i) == IncludesFrom(s, p, i + 1);
        if j :| i <= j <= |s| - |p| && MatchesAt(s, p, j, 0) {
          assert i + 1 <= j;
        }
      }
    }
  }

  /** The scan finds `p` exactly when `p` occurs in the lower-cased `s`. */
  lemma IncludesIsContains(s: string, p: string)
    ensures Includes(s, p) <==> Contains(Lower(s), p)
  {
    IncludesFromMeaning(s, p, 0);
    if Includes(s, p) {
      var j :| 0 <= j <= |s| - |p| && MatchesAt(s, p, j, 0);
      MatchesAtIsSlice(s, p, j);
    }
    if Contains(Lower(s), p) {
      var j :| 0 <= j <= |s| && OccursAt(Lower(s), p, j);
      MatchesAtIsSlice(s, p, j);
    }
  }

  /** `EqualsIgnoringCase` is the comparison of the lower-cased string. */
  lemma EqualsIgnoringCaseIsLowerEquality(s: string, p: string)
    ensures EqualsIgnoringCase(s, p) <==> Lower(s) == p
  {
    MatchesAtIsSlice(s, p, 0);
    assert |s| == |p| ==> Lower(s)[0..|p|] == Lower(s);
  }

  /** Lower-casing distributes over concatenation. */
  lemma LowerConcat(a: string, b: string)
    ensures Lower(a + b) == Lower(a) + Lower(b)
  {
    assert forall i :: 0 <= i < |a + b| ==> Lower(a + b)[i] == (Lower(a) + Lower(b))[i];
  }

  /** Only the lower-cased text matters to the scan. */
  lemma IncludesOfLower(s: string, p: string)
    ensures Includes(s, p) <==> Includes(Lower(s), p)
  {
    IncludesIsContains(s, p);
    IncludesIsContains(Lower(s), p);
    assert Lower(Lower(s)) == Lower(s);
  }

  /** A string is at least as long as anything it mentions. */
  lemma IncludesLength(s: string, p: string)
    requires Includes(s, p)
    ensures |p| <= |s|
  {
    IncludesIsContains(s, p);
  }

  /** A string that mentions `p` also mentions every piece `q` of `p`. */
  lemma IncludesPiece(s: string, p: string, q: string, k: nat)
    requires Includes(s, p)
    requires k + |q| <= |p| && p[k..k + |q|] == q
    ensures Includes(s, q)
  {
    IncludesIsContains(s, p);
    IncludesIsContains(s, q);
    var t := Lower(s);
    var j :| 0 <= j <= |t| && OccursAt(t, p, j);
    assert t[j + k..j + k + |q|] == t[j..j + |p|][k..k + |q|];
    assert OccursAt(t, q, j + k);
  }

  /**
   * A string in which a character of `p` occurs in neither case does not
   * mention `p`.
   */
  lemma NotIncludesByChar(s: string, p: string, k: nat)
    requires k < |p| && p[k] !in s && UpperChar(p[k]) !in s
    ensures !Includes(s, p)
  {
    IncludesIsContains(s, p);
    var t := Lower(s);
    forall j | 0 <= j <= |t|
      ensures !OccursAt(t, p, j)
    {
      if j + |p| <= |t| {
        assert s[j + k] in s;
        assert t[j..j + |p|][k] == t[j + k] != p[k];
      }
    }
  }

  /** Every character of `s` is in `cs`. */
  predicate AllIn(s: string, cs: set<char>)
  {
    forall i :: 0 <= i < |s| ==> s[i] in cs
  }

  /**
   * A string drawn from the characters `cs` does not mention a `p` that has
   * a character outside `cs` in both cases.
   */
  lemma NotIncludesOutside(s: string, cs: set<char>, p: string, k: nat)
    requires AllIn(s, cs) && k < |p| && p[k] !in cs && UpperChar(p[k]) !in cs
    ensures !Includes(s, p)
  {
    forall i | 0 <= i < |s|
      ensures s[i] != p[k] && s[i] != UpperChar(p[k])
    {
      assert s[i] in cs;
    }
    NotIncludesByChar(s, p, k);
  }

  /** A string with no upper-case letter mentions itself. */
  lemma IncludesItself(p: string)
    requires forall i :: 0 <= i < |p| ==> LowerChar(p[i]) == p[i]
    ensures Includes(p, p)
  {
    IncludesIsContains(p, p);
    assert Lower(p) == p;
    assert OccursAt(Lower(p), p, 0);
  }

  /** A string shorter than `p` does not mention it. */
  lemma NotIncludesShort(s: string, p: string)
    requires |s| < |p|
    ensures !Includes(s, p)
  {
    if Includes(s, p) {
      IncludesLength(s, p);
    }
  }

  /**
   * A character that, lower-cased, does not occur in `p` cuts every
   * occurrence of `p`: one on either side of it is the only kind left.
   */
  lemma NotIncludesAcross(a: string, x: char, b: string, p: string)
    requires LowerChar(x) !in p
    requires !Includes(a, p) && !Includes(b, p)
    ensures !Includes(a + [x] + b, p)
  {
    var s := a + [x] + b;
    IncludesIsContains(a, p);
    IncludesIsContains(b, p);
    IncludesIsContains(s, p);
    LowerConcat(a, [x]);
    LowerConcat(a + [x], b);
    var ta, tb, t := Lower(a), Lower(b), Lower(s);
    assert t == ta + [LowerChar(x)] + tb;
    forall j | 0 <= j <= |t|
      ensures !OccursAt(t, p, j)
    {
      if j + |p| <= |t| {
        if j + |p| <= |a| {
          assert t[j..j + |p|] == ta[j..j + |p|];
          assert !OccursAt(ta, p, j);
        } else if j > |a| {
          assert t[j..j + |p|] == tb[j - |a| - 1..j - |a| - 1 + |p|];
          assert !OccursAt(tb, p, j - |a| - 1);
        } else {
          assert t[j..j + |p|][|a| - j] == LowerChar(x);
        }
      }
    }
  }

  /** A string that mentions `a + b` mentions `a` and mentions `b`. */
  lemma IncludesPieces(s: string, a: string, b: string)
    requires Includes(s, a + b)
    ensures Includes(s, a) && Includes(s, b)
  {
    IncludesPiece(s, a + b, a, 0);
    assert (a + b)[|a|..|a| + |b|] == b;
    IncludesPiece(s, a + b, b, |a|);
  }

  /** A keyword found in `s` is still found once text is added on either side of `s`. */
  lemma IncludesInContext(a: string, s: string, b: string, p: string)
    requires Includes(s, p)
    ensures Includes(a + s + b, p)
  {
    IncludesIsContains(s, p);
    IncludesIsContains(a + s + b, p);
    LowerConcat(a, s);
    LowerConcat(a + s, b);
    var j :| 0 <= j <= |Lower(s)| && OccursAt(Lower(s), p, j);
    var t := Lower(a + s + b);
    assert t == Lower(a) + Lower(s) + Lower(b);
    assert t[|a| + j..|a| + j + |p|] == Lower(s)[j..j + |p|];
    assert OccursAt(t, p, |a| + j);
  }

  predicate IsDigit(c: char)
  {
    '0' <= c <= '9'
  }

  predicate AllDigits(d: string)
  {
    forall i :: 0 <= i < |d| ==> IsDigit(d[i])
  }

  /** Decimal value of a digit string, as `parseInt(d, 10)` reads it. */
  function DigitsValue(d: string): nat
    requires AllDigits(d)
  {
    if d == [] then 0 else DigitsValue(d[..|d| - 1]) * 10 + (d[|d| - 1] as int - '0' as int)
  }

  function DigitChar(n: nat): (c: char)
    requires n < 10
    ensures IsDigit(c)
  {
    ('0' as int + n) as char
  }

  /** `String(n)` for a natural number: decimal digits without leading zeros. */
  function NatToString(n: nat): (r: string)
    ensures |r| > 0 && AllDigits(r)
    ensures |r| > 1 ==> r[0] != '0'
  {
    if n < 10 then [DigitChar(n)] else NatToString(n / 10) + [DigitChar(n % 10)]
  }

  /** Reading back the rendered number gives the number. */
  lemma {:induction false} NatToStringRoundTrip(n: nat)
    ensures DigitsValue(NatToString(n)) == n
  {
    if n >= 10 {
      NatToStringRoundTrip(n / 10);
      var r := NatToString(n);
      assert r[..|r| - 1] == NatToString(n / 10);
    }
  }

  /** `String(n)` for an integer that may be negative. */
  function IntToString(n: int): (r: string)
    ensures n >= 0 ==> r == NatToString(n)
    ensures n < 0 ==> r == "-" + NatToString(-n)
  {
    if n >= 0 then NatToString(n) else "-" + NatToString(-n)
  }
}
