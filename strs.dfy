/**
 * String helpers shared by the model. Text is `seq<char>`; case mapping and
 * whitespace are the ASCII ones (see README, "Left out").
 */
module Strs {

  /** Whitespace as Python's `str.strip()`/`str.split()` and JavaScript's `trim()` treat it, on ASCII. */
  predicate IsSpace(c: char) {
    c == ' ' || c == '\t' || c == '\n' || c == '\r' || c == '\U{000B}' || c == '\U{000C}'
  }

  predicate IsUpper(c: char) { 'A' <= c <= 'Z' }
  predicate IsLowerLetter(c: char) { 'a' <= c <= 'z' }
  predicate IsDigit(c: char) { '0' <= c <= '9' }
  predicate IsAlnum(c: char) { IsUpper(c) || IsLowerLetter(c) || IsDigit(c) }
  /** A regex word character `\w` (ASCII). */
  predicate IsWordChar(c: char) { IsAlnum(c) || c == '_' }

  function LowerChar(c: char): (r: char)
    ensures !IsUpper(r)
    ensures IsWordChar(r) == IsWordChar(c) && IsSpace(r) == IsSpace(c)
  {
    if IsUpper(c) then (c as int + 32) as char else c
  }

  /** `str.lower()` / `toLowerCase()` on ASCII letters. */
  function Lower(s: string): (r: string)
    ensures |r| == |s|
    ensures forall i :: 0 <= i < |s| ==> r[i] == LowerChar(s[i])
  {
    seq(|s|, i requires 0 <= i < |s| => LowerChar(s[i]))
  }

  function UpperChar(c: char): (r: char)
    ensures !IsLowerLetter(r)
  {
    if IsLowerLetter(c) then (c as int - 32) as char else c
  }

  /** `str.upper()` on ASCII letters. */
  function Upper(s: string): (r: string)
    ensures |r| == |s|
    ensures forall i :: 0 <= i < |s| ==> r[i] == UpperChar(s[i])
  {
    seq(|s|, i requires 0 <= i < |s| => UpperChar(s[i]))
  }

  lemma LowerSlice(s: string, i: nat, j: nat)
    requires i <= j <= |s|
    ensures Lower(s[i..j]) == Lower(s)[i..j]
  {
    var a, b := Lower(s[i..j]), Lower(s)[i..j];
    assert |a| == |b|;
    assert forall k :: 0 <= k < |a| ==> a[k] == LowerChar(s[i + k]) == b[k];
  }

  lemma LowerAppend(a: string, b: string)
    ensures Lower(a + b) == Lower(a) + Lower(b)
  {
    assert forall i :: 0 <= i < |a + b| ==> Lower(a + b)[i] == (Lower(a) + Lower(b))[i];
  }

  /** A string with no upper-case letter is its own lower-case form. */
  lemma LowerOfLower(s: string)
    requires forall i :: 0 <= i < |s| ==> !IsUpper(s[i])
    ensures Lower(s) == s
  {
  }

  // ---------------------------------------------------------------- substrings

  predicate OccursAt(hay: string, needle: string, i: int) {
    0 <= i && i + |needle| <= |hay| && hay[i..i + |needle|] == needle
  }

  /** Python's `needle in hay` and JavaScript's `hay.includes(needle)`. */
  predicate Contains(hay: string, needle: string) {
    exists i | 0 <= i <= |hay| :: OccursAt(hay, needle, i)
  }

  /** `any(k in hay for k in needles)`. */
  predicate ContainsAny(hay: string, needles: seq<string>) {
    exists k | 0 <= k < |needles| :: Contains(hay, needles[k])
  }

  lemma ContainsPrefix(hay: string, needle: string)
    requires needle <= hay
    ensures Contains(hay, needle)
  {
    assert OccursAt(hay, needle, 0);
  }

  lemma ContainsInfix(a: string, needle: string, b: string)
    ensures Contains(a + needle + b, needle)
  {
    assert (a + needle + b)[|a|..|a| + |needle|] == needle;
    assert OccursAt(a + needle + b, needle, |a|);
  }

  // ---------------------------------------------------------------- trimming

  function TrimLeft(s: string): (r: string)
    ensures |r| <= |s| && r == s[|s| - |r|..]
    ensures r == [] || !IsSpace(r[0])
    ensures forall i :: 0 <= i < |s| - |r| ==> IsSpace(s[i])
  {
    if |s| > 0 && IsSpace(s[0]) then
      var r := TrimLeft(s[1..]);
      assert s[1..][|s| - 1 - |r|..] == s[|s| - |r|..];
      assert forall i :: 1 <= i < |s| - |r| ==> s[i] == s[1..][i - 1];
      r
    else s
  }

  function TrimRight(s: string): (r: string)
    ensures |r| <= |s| && r == s[..|r|]
    ensures r == [] || !IsSpace(r[|r| - 1])
    ensures forall i :: |r| <= i < |s| ==> IsSpace(s[i])
  {
    if |s| > 0 && IsSpace(s[|s| - 1]) then
      var r := TrimRight(s[..|s| - 1]);
      assert s[..|s| - 1][..|r|] == s[..|r|];
      assert forall i :: |r| <= i < |s| - 1 ==> s[i] == s[..|s| - 1][i];
      r
    else s
  }

  /** Python's `str.strip()` and JavaScript's `String.prototype.trim()`. */
  function Trim(s: string): (r: string)
    ensures r == [] || (!IsSpace(r[0]) && !IsSpace(r[|r| - 1]))
    ensures |r| <= |s|
  {
    TrimRight(TrimLeft(s))
  }

  /** A string that neither starts nor ends with whitespace is left unchanged by `Trim`. */
  lemma TrimOfTrimmed(s: string)
    requires s == [] || (!IsSpace(s[0]) && !IsSpace(s[|s| - 1]))
    ensures Trim(s) == s
  {
  }

  lemma TrimIdempotent(s: string)
    ensures Trim(Trim(s)) == Trim(s)
  {
    TrimOfTrimmed(Trim(s));
  }

  /** Leading whitespace does not change what `Trim` returns. */
  lemma TrimLeftSpace(w: string, s: string)
    requires forall i :: 0 <= i < |w| ==> IsSpace(w[i])
    ensures TrimLeft(w + s) == TrimLeft(s)
  {
    if w != [] {
      assert (w + s)[0] == w[0];
      assert (w + s)[1..] == w[1..] + s;
      TrimLeftSpace(w[1..], s);
    } else {
      assert w + s == s;
    }
  }

  /** `\s*` from position `i`: the first position at or after `i` that holds no whitespace. */
  function SkipSpaces(s: string, i: nat): (j: nat)
    requires i <= |s|
    ensures i <= j <= |s| && (j == |s| || !IsSpace(s[j]))
    ensures forall k :: i <= k < j ==> IsSpace(s[k])
    decreases |s| - i
  {
    if i < |s| && IsSpace(s[i]) then SkipSpaces(s, i + 1) else i
  }

  /** `TrimLeft` is characterised by where its first kept character sits. */
  lemma TrimLeftIs(s: string, k: nat)
    requires k <= |s| && (k == |s| || !IsSpace(s[k]))
    requires forall i :: 0 <= i < k ==> IsSpace(s[i])
    ensures TrimLeft(s) == s[k..]
  {
    var r := TrimLeft(s);
    var m := |s| - |r|;
    if m < |s| {
      assert r[0] == s[m];
    }
    assert m == k;
  }

  /** `TrimRight` is characterised by where its last kept character sits. */
  lemma TrimRightIs(s: string, n: nat)
    requires n <= |s| && (n == 0 || !IsSpace(s[n - 1]))
    requires forall i :: n <= i < |s| ==> IsSpace(s[i])
    ensures TrimRight(s) == s[..n]
  {
    var m := |TrimRight(s)|;
    if m > 0 {
      assert TrimRight(s)[m - 1] == s[m - 1];
    }
  }

  /** The non-blank middle `x[k..n]` is what is left after trimming both ends, in either order. */
  lemma TrimMiddle(x: string, k: nat, n: nat)
    requires k < n <= |x| && !IsSpace(x[k]) && !IsSpace(x[n - 1])
    requires forall i :: 0 <= i < k ==> IsSpace(x[i])
    requires forall i :: n <= i < |x| ==> IsSpace(x[i])
    ensures TrimLeft(x[..n]) == x[k..n]
    ensures TrimRight(x[k..]) == x[k..n]
  {
    TrimMiddleLeft(x, k, n);
    TrimMiddleRight(x, k, n);
  }

  lemma TrimMiddleLeft(x: string, k: nat, n: nat)
    requires k < n <= |x| && !IsSpace(x[k])
    requires forall i :: 0 <= i < k ==> IsSpace(x[i])
    ensures TrimLeft(x[..n]) == x[k..n]
  {
    var xn := x[..n];
    assert forall i :: 0 <= i < k ==> xn[i] == x[i];
    TrimLeftIs(xn, k);
    assert xn[k..] == x[k..n];
  }

  lemma TrimMiddleRight(x: string, k: nat, n: nat)
    requires k < n <= |x| && !IsSpace(x[n - 1])
    requires forall i :: n <= i < |x| ==> IsSpace(x[i])
    ensures TrimRight(x[k..]) == x[k..n]
  {
    var xk := x[k..];
    assert forall i :: n - k <= i < |xk| ==> xk[i] == x[i + k];
    TrimRightIs(xk, n - k);
    assert xk[..n - k] == x[k..n];
  }

  /** Trimming the two ends in either order gives the same string. */
  lemma TrimLeftOfTrimRight(x: string)
    ensures TrimLeft(TrimRight(x)) == Trim(x)
  {
    var l := TrimLeft(x);
    var k := |x| - |l|;
    var r := TrimRight(x);
    var n := |r|;
    if l == [] {
      TrimRightIs(x, 0);
    } else {
      assert l[0] == x[k];
      TrimMiddle(x, k, n);
    }
  }

  /** Trailing whitespace after a part that ends in a non-space character only affects what follows it. */
  lemma TrimRightAppend(p: string, w: string)
    requires p != [] && !IsSpace(p[|p| - 1])
    ensures TrimRight(p + w) == p + TrimRight(w)
  {
    var m := |TrimRight(w)|;
    if m > 0 {
      assert (p + w)[|p| + m - 1] == w[m - 1];
    }
    assert forall i :: |p| + m <= i < |p + w| ==> (p + w)[i] == w[i - |p|];
    TrimRightIs(p + w, |p| + m);
    assert (p + w)[..|p| + m] == p + w[..m];
  }

  /** The rest of a string after its leading whitespace. */
  lemma SkipSpacesTrims(s: string, i: nat)
    requires i <= |s|
    ensures s[SkipSpaces(s, i)..] == TrimLeft(s[i..])
  {
    var j := SkipSpaces(s, i);
    TrimLeftIs(s[i..], j - i);
    assert s[i..][j - i..] == s[j..];
  }

  predicate AllSpace(w: string) { forall i :: 0 <= i < |w| ==> IsSpace(w[i]) }

  /** `SkipSpaces` stops at the first non-space at or after `i`. */
  lemma SkipSpacesIs(s: string, i: nat, j: nat)
    requires i <= j <= |s| && (j == |s| || !IsSpace(s[j]))
    requires forall k :: i <= k < j ==> IsSpace(s[k])
    ensures SkipSpaces(s, i) == j
  {
  }

  lemma TrimOfTrimLeft(z: string)
    ensures Trim(TrimLeft(z)) == Trim(z)
  {
    TrimLeftIs(TrimLeft(z), 0);
  }

  lemma TrimRightOfTrimmed(t: string)
    requires t == [] || !IsSpace(t[|t| - 1])
    ensures TrimRight(t) == t
  {
  }

  lemma TrimOfTrimRight(z: string)
    ensures Trim(TrimRight(z)) == Trim(z)
  {
    TrimLeftOfTrimRight(z);
    TrimRightOfTrimmed(Trim(z));
  }

  /** Leading whitespace does not change the stripped string. */
  lemma TrimLeadingSpace(w: string, z: string)
    requires AllSpace(w)
    ensures Trim(w + z) == Trim(z)
  {
    TrimLeftSpace(w, z);
  }

  // ---------------------------------------------------------------- slicing, joining, splitting

  /** Python's `s[:n]` and JavaScript's `s.slice(0, n)` for `n >= 0`. */
  function Take<T>(s: seq<T>, n: nat): (r: seq<T>)
    ensures |r| == if n < |s| then n else |s|
    ensures r <= s
  {
    if n < |s| then s[..n] else s
  }

  /** `sep.join(parts)`. */
  function Join(parts: seq<string>, sep: string): string {
    if |parts| == 0 then ""
    else if |parts| == 1 then parts[0]
    else parts[0] + sep + Join(parts[1..], sep)
  }

  /** Python's `s.split(sep)` for a one-character separator. */
  function SplitOn(s: string, sep: char): (r: seq<string>)
    ensures |r| >= 1
    ensures forall k :: 0 <= k < |r| ==> sep !in r[k]
  {
    if |s| == 0 then [""]
    else
      var rest := SplitOn(s[1..], sep);
      if s[0] == sep then [""] + rest else [[s[0]] + rest[0]] + rest[1..]
  }

  /** Splitting on a separator and joining with it gives the text back. */
  lemma {:induction false} JoinSplitOn(s: string, sep: char)
    ensures Join(SplitOn(s, sep), [sep]) == s
  {
    if |s| > 0 {
      var rest := SplitOn(s[1..], sep);
      JoinSplitOn(s[1..], sep);
      if s[0] == sep {
        assert SplitOn(s, sep) == [""] + rest;
        assert Join([""] + rest, [sep]) == "" + [sep] + Join(rest, [sep]);
        assert s == [s[0]] + s[1..];
      } else {
        var parts := [[s[0]] + rest[0]] + rest[1..];
        if |rest| == 1 {
          assert Join(parts, [sep]) == [s[0]] + rest[0];
        } else {
          assert parts[1..] == rest[1..];
          assert Join(parts, [sep]) == [s[0]] + rest[0] + [sep] + Join(rest[1..], [sep]);
          assert Join(rest, [sep]) == rest[0] + [sep] + Join(rest[1..], [sep]);
        }
        assert s == [s[0]] + s[1..];
      }
    }
  }

  /** Text without the separator is a single piece. */
  lemma {:induction false} SplitOnNoSep(a: string, sep: char)
    requires sep !in a
    ensures SplitOn(a, sep) == [a]
  {
    if |a| > 0 {
      SplitOnNoSep(a[1..], sep);
      assert [a[0]] + a[1..] == a;
    }
  }

  /** Splitting stops at the first separator. */
  lemma {:induction false} SplitOnFirstSep(a: string, sep: char, b: string)
    requires sep !in a
    ensures SplitOn(a + [sep] + b, sep) == [a] + SplitOn(b, sep)
  {
    if |a| == 0 {
      assert a + [sep] + b == [sep] + b;
      assert ([sep] + b)[1..] == b;
    } else {
      assert (a + [sep] + b)[1..] == a[1..] + [sep] + b;
      SplitOnFirstSep(a[1..], sep, b);
      assert [a[0]] + a[1..] == a;
    }
  }

  /** Joining pieces free of the separator and splitting again gives the pieces back. */
  lemma {:induction false} SplitOnJoin(parts: seq<string>, sep: char)
    requires |parts| >= 1
    requires forall k :: 0 <= k < |parts| ==> sep !in parts[k]
    ensures SplitOn(Join(parts, [sep]), sep) == parts
  {
    if |parts| == 1 {
      SplitOnNoSep(parts[0], sep);
    } else {
      SplitOnJoin(parts[1..], sep);
      SplitOnFirstSep(parts[0], sep, Join(parts[1..], [sep]));
    }
  }

  /** Every character of the trimmed text occurs in the text. */
  lemma TrimChars(s: string)
    ensures forall c :: c in Trim(s) ==> c in s
  {
    var l := TrimLeft(s);
    assert forall c :: c in l ==> c in s;
  }

  /** `len(s.split())`: the number of maximal runs of non-whitespace. */
  function WordCount(s: string): nat {
    if |s| == 0 then 0
    else
      var starts := !IsSpace(s[|s| - 1]) && (|s| == 1 || IsSpace(s[|s| - 2]));
      WordCount(s[..|s| - 1]) + (if starts then 1 else 0)
  }

  // ---------------------------------------------------------------- numbers

  function DigitChar(d: nat): (c: char)
    requires d < 10
    ensures IsDigit(c)
  {
    ('0' as int + d) as char
  }

  /** Decimal rendering of a natural number, as `str(n)` and `String(n)` give it. */
  function NatToString(n: nat): (r: string)
    ensures |r| >= 1
    ensures forall i :: 0 <= i < |r| ==> IsDigit(r[i])
  {
    if n < 10 then [DigitChar(n)] else NatToString(n / 10) + [DigitChar(n % 10)]
  }

  /** Different numbers print differently. */
  lemma {:induction false} NatToStringInjective(n: nat, m: nat)
    requires NatToString(n) == NatToString(m)
    ensures n == m
  {
    var r := NatToString(n);
    if n >= 10 && m >= 10 {
      var a, b := NatToString(n / 10), NatToString(m / 10);
      assert |a| == |b|;
      assert r[..|a|] == a && r[..|b|] == b;
      NatToStringInjective(n / 10, m / 10);
      assert DigitChar(n % 10) == r[|r| - 1] == DigitChar(m % 10);
    }
  }

  function IntToString(i: int): (r: string)
    ensures |r| >= 1
  {
    if i < 0 then "-" + NatToString(-i) else NatToString(i)
  }
}
