/**
 * String helpers shared by the model: substring search, ASCII lower-casing,
 * decimal rendering and parsing of numbers, first-occurrence replacement and
 * the byte-wise string order used when the stats page sorts its keys.
 */
module Text {

  import opened Wrappers

  /** True when `p` is a prefix of `s`. */
  predicate IsPrefix(p: string, s: string) {
    |p| <= |s| && s[..|p|] == p
  }

  /** `sub` occurs in `s` starting at index `i`. */
  predicate OccursAt(s: string, sub: string, i: int) {
    0 <= i && i + |sub| <= |s| && s[i..i + |sub|] == sub
  }

  /** Whether `sub` occurs in `s` (Go's strings.Contains, JavaScript's String.prototype.includes). */
  function Contains(s: string, sub: string): (r: bool)
    ensures r <==> exists i :: OccursAt(s, sub, i)
    decreases |s|
  {
    if IsPrefix(sub, s) then
      assert OccursAt(s, sub, 0);
      true
    else if s == [] then
      assert forall i :: !OccursAt(s, sub, i);
      false
    else
      var rest := Contains(s[1..], sub);
      assert rest ==> exists i :: OccursAt(s, sub, i) by {
        if rest {
          var j :| OccursAt(s[1..], sub, j);
          assert s[j + 1..j + 1 + |sub|] == s[1..][j..j + |sub|];
          assert OccursAt(s, sub, j + 1);
        }
      }
      assert (exists i :: OccursAt(s, sub, i)) ==> rest by {
        if exists i :: OccursAt(s, sub, i) {
          var i :| OccursAt(s, sub, i);
          assert i != 0;
          assert s[1..][i - 1..i - 1 + |sub|] == s[i..i + |sub|];
          assert OccursAt(s[1..], sub, i - 1);
        }
      }
      rest
  }

  /** A one-character string occurs exactly where that character does. */
  lemma ContainsChar(s: string, c: char)
    ensures Contains(s, [c]) <==> c in s
  {
    forall i | 0 <= i < |s| ensures OccursAt(s, [c], i) <==> s[i] == c {
      assert s[i..i + 1] == [s[i]];
    }
    if c in s {
      var i :| 0 <= i < |s| && s[i] == c;
      assert OccursAt(s, [c], i);
    }
  }

  /** ASCII lower-casing of one character. */
  function LowerChar(c: char): (r: char)
    ensures 'A' <= c <= 'Z' ==> r as int == c as int + 32
    ensures !('A' <= c <= 'Z') ==> r == c
  {
    if 'A' <= c <= 'Z' then ((c as int) + 32) as char else c
  }

  /** ASCII lower-casing of a string, character by character. */
  function Lower(s: string): (r: string)
    ensures |r| == |s|
    ensures forall i :: 0 <= i < |s| ==> r[i] == LowerChar(s[i])
  {
    if s == [] then [] else [LowerChar(s[0])] + Lower(s[1..])
  }

  predicate IsDigit(c: char) {
    '0' <= c <= '9'
  }

  function DigitChar(d: nat): (c: char)
    requires d < 10
    ensures IsDigit(c) && (c as int) - ('0' as int) == d
  {
    ((d + '0' as int) as char)
  }

  /** The decimal rendering of a natural number, without leading zeros ("%d", strconv.Itoa). */
  function NatToString(n: nat): (s: string)
    ensures |s| > 0
    ensures forall i :: 0 <= i < |s| ==> IsDigit(s[i])
    ensures |s| > 1 ==> s[0] != '0'
  {
    if n < 10 then [DigitChar(n)] else NatToString(n / 10) + [DigitChar(n % 10)]
  }

  /** The decimal rendering of an integer, with a leading '-' when negative (strconv.Itoa). */
  function IntToString(n: int): (s: string)
    ensures |s| > 0
    ensures n < 0 <==> s[0] == '-'
  {
    if n < 0 then "-" + NatToString(-n) else NatToString(n)
  }

  /** The value of a string of decimal digits. */
  function DigitsValue(s: string): nat
    requires forall i :: 0 <= i < |s| ==> IsDigit(s[i])
  {
    if s == [] then 0
    else
      assert IsDigit(s[|s| - 1]);
      DigitsValue(s[..|s| - 1]) * 10 + ((s[|s| - 1] as int) - ('0' as int))
  }

  /** Reading back what NatToString writes gives the number. */
  lemma {:induction false} DigitsValueOfNatToString(n: nat)
    ensures DigitsValue(NatToString(n)) == n
  {
    if n >= 10 {
      var s := NatToString(n);
      assert s[..|s| - 1] == NatToString(n / 10);
      DigitsValueOfNatToString(n / 10);
    }
  }

  function Pow10(k: nat): (r: nat)
    ensures r >= 1
  {
    if k == 0 then 1 else 10 * Pow10(k - 1)
  }

  /** Length of the longest prefix of `s` made of decimal digits. */
  function DigitRun(s: string): (k: nat)
    ensures k <= |s|
    ensures forall i :: 0 <= i < k ==> IsDigit(s[i])
    ensures k < |s| ==> !IsDigit(s[k])
  {
    if s == [] || !IsDigit(s[0]) then 0 else 1 + DigitRun(s[1..])
  }

  /**
   * The decimal subset of strconv.ParseFloat: an optional sign, then digits
   * with an optional fraction, or a fraction alone ("12", "-3.5", "7.", ".25").
   * Anything else, the empty string included, is a syntax error (None).
   */
  function ParseDecimal(s: string): (r: Option<real>)
    ensures s == [] ==> r == None
  {
    if s == [] then None
    else if s[0] == '-' then
      match ParseUnsigned(s[1..]) case Some(v) => Some(-v) case None => None
    else if s[0] == '+' then ParseUnsigned(s[1..])
    else ParseUnsigned(s)
  }

  function ParseUnsigned(s: string): (r: Option<real>)
    ensures r.Some? ==> r.value >= 0.0
  {
    var k := DigitRun(s);
    var whole := DigitsValue(s[..k]);
    if k == |s| then
      if k == 0 then None else Some(whole as real)
    else if s[k] != '.' then None
    else
      var frac := s[k + 1..];
      var f := DigitRun(frac);
      if f != |frac| || (k == 0 && f == 0) then None
      else Some(DecimalValue(whole, DigitsValue(frac), f))
  }

  /** The value of a whole part followed by `places` fraction digits worth `digits`. */
  function DecimalValue(whole: nat, digits: nat, places: nat): (v: real)
    ensures v >= whole as real
  {
    whole as real + (digits as real) / (Pow10(places) as real)
  }

  /** ParseDecimal reads back every integer IntToString writes. */
  lemma ParseDecimalOfIntToString(n: int)
    ensures ParseDecimal(IntToString(n)) == Some(n as real)
  {
    var m: nat := if n < 0 then -n else n;
    var s := NatToString(m);
    assert DigitRun(s) == |s| by { DigitRunAll(s); }
    assert s[..|s|] == s;
    DigitsValueOfNatToString(m);
    if n < 0 {
      assert IntToString(n)[1..] == s;
    }
  }

  /**
   * The text ParseUnsigned accepts: at least one digit, nothing but digits
   * and a decimal point, and at most one decimal point.
   */
  predicate UnsignedSyntax(s: string) {
    (exists i :: 0 <= i < |s| && IsDigit(s[i]))
    && (forall i :: 0 <= i < |s| ==> IsDigit(s[i]) || s[i] == '.')
    && (forall i, j :: 0 <= i < j < |s| && s[i] == '.' ==> s[j] != '.')
  }

  /** The text ParseDecimal accepts: an optional leading sign, then unsigned decimal text. */
  predicate DecimalSyntax(s: string) {
    s != [] && (if s[0] == '-' || s[0] == '+' then UnsignedSyntax(s[1..]) else UnsignedSyntax(s))
  }

  /** ParseUnsigned succeeds exactly on unsigned decimal text. */
  lemma ParseUnsignedSyntax(s: string)
    ensures ParseUnsigned(s).Some? <==> UnsignedSyntax(s)
  {
    var k := DigitRun(s);
    if k == |s| {
      if s != [] {
        assert IsDigit(s[0]);
      }
    } else if s[k] != '.' {
      assert !(IsDigit(s[k]) || s[k] == '.');
    } else {
      var frac := s[k + 1..];
      var f := DigitRun(frac);
      if f != |frac| {
        assert s[k + 1 + f] == frac[f];
        if frac[f] == '.' {
          assert s[k] == '.' && s[k + 1 + f] == '.';
        } else {
          assert !(IsDigit(s[k + 1 + f]) || s[k + 1 + f] == '.');
        }
      } else if k == 0 && f == 0 {
        assert |s| == 1 && s[0] == '.';
      } else {
        forall i | k < i < |s| ensures IsDigit(s[i]) {
          assert s[i] == frac[i - k - 1];
        }
        if k > 0 {
          assert IsDigit(s[0]);
        } else {
          assert IsDigit(s[k + 1]);
        }
      }
    }
  }

  /** ParseDecimal succeeds exactly on decimal text with an optional sign: a character other than a digit, a leading sign or a single point is refused. */
  lemma ParseDecimalSyntax(s: string)
    ensures ParseDecimal(s).Some? <==> DecimalSyntax(s)
  {
    if s != [] {
      if s[0] == '-' || s[0] == '+' {
        ParseUnsignedSyntax(s[1..]);
      } else {
        ParseUnsignedSyntax(s);
      }
    }
  }

  /** Digits, a point and more digits read as the whole part plus the fraction's digits over ten to the number of places. */
  lemma ParseDecimalFraction(w: string, ds: string)
    requires forall i :: 0 <= i < |w| ==> IsDigit(w[i])
    requires forall i :: 0 <= i < |ds| ==> IsDigit(ds[i])
    requires w != [] || ds != []
    ensures ParseDecimal(w + "." + ds) == Some(DecimalValue(DigitsValue(w), DigitsValue(ds), |ds|))
  {
    var s := w + "." + ds;
    UnsignedFraction(w, ds, s);
    var v := DecimalValue(DigitsValue(w), DigitsValue(ds), |ds|);
    assert s[0] == '.' || IsDigit(s[0]) by {
      if w != [] { assert s[0] == w[0]; } else { assert s[0] == '.'; }
    }
    UnsignedIsDecimal(s, v);
  }

  /** The same text after a minus sign reads as the negated value. */
  lemma ParseDecimalNegativeFraction(w: string, ds: string, v: real)
    requires forall i :: 0 <= i < |w| ==> IsDigit(w[i])
    requires forall i :: 0 <= i < |ds| ==> IsDigit(ds[i])
    requires w != [] || ds != []
    requires v == DecimalValue(DigitsValue(w), DigitsValue(ds), |ds|)
    ensures ParseDecimal("-" + w + "." + ds) == Some(-v)
  {
    UnsignedFraction(w, ds, w + "." + ds);
    NegatedDecimal(w, ds, v);
  }

  /** Text that starts with a digit or a point parses as ParseUnsigned reads it. */
  lemma UnsignedIsDecimal(s: string, v: real)
    requires s != [] && (s[0] == '.' || IsDigit(s[0]))
    requires ParseUnsigned(s) == Some(v)
    ensures ParseDecimal(s) == Some(v)
  {
  }

  /** A leading minus sign negates what the rest reads as. */
  lemma NegatedDecimal(w: string, ds: string, v: real)
    requires ParseUnsigned(w + "." + ds) == Some(v)
    ensures ParseDecimal("-" + w + "." + ds) == Some(-v)
  {
    var t := "-" + w + "." + ds;
    assert t[1..] == w + "." + ds;
  }

  lemma UnsignedFraction(w: string, ds: string, s: string)
    requires forall i :: 0 <= i < |w| ==> IsDigit(w[i])
    requires forall i :: 0 <= i < |ds| ==> IsDigit(ds[i])
    requires w != [] || ds != []
    requires s == w + "." + ds
    ensures ParseUnsigned(s) == Some(DecimalValue(DigitsValue(w), DigitsValue(ds), |ds|))
  {
    assert s == w + ("." + ds);
    DigitRunBeforeOther(w, "." + ds);
    var k := |w|;
    assert s[..k] == w && s[k] == '.' && s[k + 1..] == ds;
    DigitRunAll(ds);
    UnsignedPointSplit(s, k);
  }

  /** Text whose digit run ends at a point followed only by digits reads as whole part plus fraction. */
  lemma UnsignedPointSplit(s: string, k: nat)
    requires k < |s| && DigitRun(s) == k && s[k] == '.'
    requires DigitRun(s[k + 1..]) == |s| - k - 1
    requires k > 0 || k + 1 < |s|
    ensures ParseUnsigned(s) == Some(DecimalValue(DigitsValue(s[..k]), DigitsValue(s[k + 1..]), |s| - k - 1))
  {
  }

  lemma {:induction false} DigitRunBeforeOther(w: string, t: string)
    requires forall i :: 0 <= i < |w| ==> IsDigit(w[i])
    requires t != [] && !IsDigit(t[0])
    ensures DigitRun(w + t) == |w|
  {
    if w != [] {
      assert (w + t)[1..] == w[1..] + t;
      DigitRunBeforeOther(w[1..], t);
    } else {
      assert w + t == t;
    }
  }

  lemma {:induction false} DigitRunAll(s: string)
    requires forall i :: 0 <= i < |s| ==> IsDigit(s[i])
    ensures DigitRun(s) == |s|
  {
    if s != [] {
      DigitRunAll(s[1..]);
    }
  }

  /** No occurrence of `pat` in `s` starts before index `i`. */
  predicate NoneBefore(s: string, pat: string, i: int) {
    forall j :: 0 <= j < i ==> !OccursAt(s, pat, j)
  }

  /** Replace the first occurrence of `pat` in `s` by `rep` (String.prototype.replace with a string pattern). */
  function ReplaceFirst(s: string, pat: string, rep: string): (r: string)
    ensures !Contains(s, pat) ==> r == s
    ensures IsPrefix(pat, s) ==> r == rep + s[|pat|..]
    decreases |s|
  {
    if IsPrefix(pat, s) then rep + s[|pat|..]
    else if s == [] then s
    else [s[0]] + ReplaceFirst(s[1..], pat, rep)
  }

  /** Wherever the first occurrence starts, it is the one replaced and the text around it is kept. */
  lemma {:induction false} ReplaceFirstAt(s: string, pat: string, rep: string, i: int)
    requires OccursAt(s, pat, i) && NoneBefore(s, pat, i)
    ensures ReplaceFirst(s, pat, rep) == s[..i] + rep + s[i + |pat|..]
    decreases |s|
  {
    if !IsPrefix(pat, s) {
      FirstOccurrenceOfTail(s, pat, i);
      var t := s[1..];
      ReplaceFirstAt(t, pat, rep, i - 1);
      ReplaceFirstStep(s, pat, rep, i);
    } else {
      assert OccursAt(s, pat, 0) by {
        assert s[0..|pat|] == s[..|pat|];
      }
      assert s[..i] == [];
    }
  }

  /** One step of the search: past a non-matching first character, the replacement happens in the tail. */
  lemma ReplaceFirstStep(s: string, pat: string, rep: string, i: int)
    requires s != [] && !IsPrefix(pat, s) && OccursAt(s, pat, i) && 0 < i
    requires ReplaceFirst(s[1..], pat, rep) == s[1..][..i - 1] + rep + s[1..][i - 1 + |pat|..]
    ensures ReplaceFirst(s, pat, rep) == s[..i] + rep + s[i + |pat|..]
  {
    assert Contains(s, pat);
    var t := s[1..];
    var tail := ReplaceFirst(t, pat, rep);
    assert ReplaceFirst(s, pat, rep) == [s[0]] + tail;
    assert t[..i - 1] == s[1..i] && t[i - 1 + |pat|..] == s[i + |pat|..];
    assert [s[0]] + tail == ([s[0]] + s[1..i]) + rep + s[i + |pat|..];
    assert [s[0]] + s[1..i] == s[..i];
  }

  /** A first occurrence after index 0 is, one index earlier, the first occurrence in the tail. */
  lemma FirstOccurrenceOfTail(s: string, pat: string, i: int)
    requires s != [] && !IsPrefix(pat, s)
    requires OccursAt(s, pat, i) && NoneBefore(s, pat, i)
    ensures i > 0 && OccursAt(s[1..], pat, i - 1) && NoneBefore(s[1..], pat, i - 1)
  {
    assert s[1..][i - 1..i - 1 + |pat|] == s[i..i + |pat|];
    forall j | 0 <= j < i - 1 ensures !OccursAt(s[1..], pat, j) {
      assert !OccursAt(s, pat, j + 1);
      assert s[1..][j..j + |pat|] == s[j + 1..j + 1 + |pat|];
    }
  }

  /** Byte-wise lexicographic order on strings, as Go compares strings. */
  predicate LessEq(a: string, b: string)
    decreases |a|
  {
    a == [] || (b != [] && (a[0] < b[0] || (a[0] == b[0] && LessEq(a[1..], b[1..]))))
  }

  lemma {:induction false} LessEqTotal(a: string, b: string)
    ensures LessEq(a, b) || LessEq(b, a)
    decreases |a|
  {
    if a != [] && b != [] && a[0] == b[0] {
      LessEqTotal(a[1..], b[1..]);
    }
  }

  lemma {:induction false} LessEqTransitive(a: string, b: string, c: string)
    requires LessEq(a, b) && LessEq(b, c)
    ensures LessEq(a, c)
    decreases |a|
  {
    if a != [] && a[0] == b[0] && b[0] == c[0] {
      LessEqTransitive(a[1..], b[1..], c[1..]);
    }
  }

  predicate SortedStrings(s: seq<string>) {
    forall i, j :: 0 <= i < j < |s| ==> LessEq(s[i], s[j])
  }

  /** A string no greater than every element may go in front of a sorted sequence. */
  lemma PrependSorted(x: string, s: seq<string>)
    requires SortedStrings(s)
    requires forall j :: 0 <= j < |s| ==> LessEq(x, s[j])
    ensures SortedStrings([x] + s)
  {
    var r := [x] + s;
    forall i, j | 0 <= i < j < |r| ensures LessEq(r[i], r[j]) {
      if i > 0 { assert r[i] == s[i - 1] && r[j] == s[j - 1]; }
    }
  }

  /** The head of a sorted sequence is below anything its tail's elements and a larger `x` are rearranged into. */
  lemma HeadBelow(s: seq<string>, x: string, tail: seq<string>)
    requires s != [] && SortedStrings(s) && LessEq(s[0], x)
    requires multiset(tail) == multiset(s[1..]) + multiset{x}
    ensures forall j :: 0 <= j < |tail| ==> LessEq(s[0], tail[j])
  {
    forall j | 0 <= j < |tail| ensures LessEq(s[0], tail[j]) {
      assert tail[j] in multiset(tail);
      if tail[j] != x {
        assert tail[j] in multiset(s[1..]);
        var k :| 0 <= k < |s[1..]| && s[1..][k] == tail[j];
        assert s[k + 1] == tail[j];
      }
    }
  }

  /** Insert `x` into a sorted sequence of strings. */
  function InsertString(x: string, s: seq<string>): (r: seq<string>)
    requires SortedStrings(s)
    ensures SortedStrings(r)
    ensures multiset(r) == multiset(s) + multiset{x}
  {
    if s == [] then [x]
    else if LessEq(x, s[0]) then
      assert forall j :: 0 <= j < |s| ==> LessEq(x, s[j]) by {
        forall j | 0 <= j < |s| ensures LessEq(x, s[j]) {
          if j > 0 { LessEqTransitive(x, s[0], s[j]); }
        }
      }
      PrependSorted(x, s);
      [x] + s
    else
      LessEqTotal(x, s[0]);
      var tail := InsertString(x, s[1..]);
      assert s == [s[0]] + s[1..];
      HeadBelow(s, x, tail);
      PrependSorted(s[0], tail);
      [s[0]] + tail
  }

  /** sort.Strings: the strings in ascending byte-wise order. */
  function SortStrings(s: seq<string>): (r: seq<string>)
    ensures SortedStrings(r)
    ensures multiset(r) == multiset(s)
  {
    if s == [] then []
    else
      assert s == s[..|s| - 1] + [s[|s| - 1]];
      InsertString(s[|s| - 1], SortStrings(s[..|s| - 1]))
  }
}
