/**
 * tools/contract_parser.py: `clean_raw_text` and `split_into_clauses`.
 *
 * The two regular expressions are written out as what they match on ASCII
 * text: `_{3,}` removes every maximal run of three or more underscores, and
 * the numbering separator `\n\s*\(?\d+(?:\.\d+)*\)?[\.\)]?\s+` is decided by
 * `SeparatorEnd`, which follows the regex engine's greedy, backtracking
 * search (see the comment there). Loading the PDF is not modelled.
 */
module ContractParser {
  import opened Wrappers
  import opened Strs

  // ---------------------------------------------------------------- re.sub(r'_{3,}', '', text)

  /** The number of underscores `s` starts with. */
  function LeadingUnderscores(s: string): (n: nat)
    ensures n <= |s|
    ensures forall k :: 0 <= k < n ==> s[k] == '_'
    ensures n == |s| || s[n] != '_'
  {
    if s != [] && s[0] == '_' then 1 + LeadingUnderscores(s[1..]) else 0
  }

  /** `re.sub(r'_{3,}', '', s)`: runs of one or two underscores stay, longer runs go. */
  function RemoveUnderscoreRuns(s: string): (r: string)
    ensures |r| <= |s|
    ensures s != [] && s[0] != '_' ==> r != [] && r[0] == s[0]
    decreases |s|
  {
    if s == [] then []
    else if s[0] != '_' then [s[0]] + RemoveUnderscoreRuns(s[1..])
    else
      var n := LeadingUnderscores(s);
      if n >= 3 then RemoveUnderscoreRuns(s[n..]) else s[..n] + RemoveUnderscoreRuns(s[n..])
  }

  /** No three consecutive underscores. */
  predicate NoUnderscoreRun(s: string) {
    forall i :: 0 <= i < |s| - 2 ==> !(s[i] == '_' && s[i + 1] == '_' && s[i + 2] == '_')
  }

  /** After the substitution no run of three underscores is left (removing a run never joins two others). */
  lemma {:induction false} UnderscoreRunsRemoved(s: string)
    ensures NoUnderscoreRun(RemoveUnderscoreRuns(s))
    decreases |s|
  {
    if s == [] {
    } else if s[0] != '_' {
      UnderscoreRunsRemoved(s[1..]);
    } else {
      var n := LeadingUnderscores(s);
      UnderscoreRunsRemoved(s[n..]);
      if n < 3 {
        var tail := RemoveUnderscoreRuns(s[n..]);
        var r := s[..n] + tail;
        forall i | 0 <= i < |r| - 2
          ensures !(r[i] == '_' && r[i + 1] == '_' && r[i + 2] == '_')
        {
          if i < n {
            assert tail != [] ==> tail[0] != '_';
          }
        }
      }
    }
  }

  // ---------------------------------------------------------------- clean_raw_text

  const Labels: seq<string> := ["director", "employee", "signature"]

  /** `re.search(r'page\s*\d+', low)`. */
  predicate PageNumber(low: string) {
    exists i, j | 0 <= i && i + 4 <= j < |low| ::
      OccursAt(low, "page", i) && IsDigit(low[j]) && forall k :: i + 4 <= k < j ==> IsSpace(low[k])
  }

  /** The line-filter guards of `clean_raw_text`, applied to a stripped line. */
  predicate KeepLine(stripped: string) {
    && stripped != []
    && !PageNumber(Lower(stripped))
    && !ContainsAny(Lower(stripped), Labels)
  }

  /**
   * The pieces, each stripped, that `keep` accepts, in order: the shape shared
   * by the line filter of `clean_raw_text` and the fragment filter of
   * `split_into_clauses`.
   */
  function KeepStripped(pieces: seq<string>, keep: string -> bool): (r: seq<string>)
    ensures |r| <= |pieces|
  {
    if pieces == [] then []
    else
      var c := Trim(pieces[|pieces| - 1]);
      KeepStripped(pieces[..|pieces| - 1], keep) + (if keep(c) then [c] else [])
  }

  lemma KeepStrippedSnoc(pieces: seq<string>, p: string, keep: string -> bool)
    ensures KeepStripped(pieces + [p], keep) == KeepStripped(pieces, keep) + (if keep(Trim(p)) then [Trim(p)] else [])
  {
    assert (pieces + [p])[..|pieces|] == pieces;
  }

  /** Every kept piece is stripped, accepted, and the strip of some input piece. */
  lemma {:induction false} KeepStrippedQualifies(pieces: seq<string>, keep: string -> bool, x: string)
    requires x in KeepStripped(pieces, keep)
    ensures keep(x) && Trim(x) == x
    ensures exists k :: 0 <= k < |pieces| && x == Trim(pieces[k])
  {
    var init := pieces[..|pieces| - 1];
    var last := pieces[|pieces| - 1];
    assert pieces == init + [last];
    KeepStrippedSnoc(init, last, keep);
    if x in KeepStripped(init, keep) {
      KeepStrippedQualifies(init, keep, x);
      var k :| 0 <= k < |init| && x == Trim(init[k]);
      assert pieces[k] == init[k];
    } else {
      assert x == Trim(last) && keep(x);
      TrimIdempotent(last);
    }
  }

  /** The filter keeps relative order: it distributes over concatenation. */
  lemma {:induction false} KeepStrippedAppend(a: seq<string>, b: seq<string>, keep: string -> bool)
    ensures KeepStripped(a + b, keep) == KeepStripped(a, keep) + KeepStripped(b, keep)
  {
    if b == [] {
      assert a + b == a;
    } else {
      var init, last := b[..|b| - 1], b[|b| - 1];
      assert b == init + [last];
      assert a + b == (a + init) + [last];
      KeepStrippedSnoc(a + init, last, keep);
      KeepStrippedSnoc(init, last, keep);
      KeepStrippedAppend(a, init, keep);
    }
  }

  /** The stripped lines that survive the filter, in order. */
  function KeptLines(lines: seq<string>): seq<string> {
    KeepStripped(lines, KeepLine)
  }

  function CleanedText(text: string): string {
    Join(KeptLines(SplitOn(RemoveUnderscoreRuns(text), '\n')), "\n")
  }

  /** `clean_raw_text(text)`. */
  method CleanRawText(text: string) returns (r: string)
    ensures r == CleanedText(text)
  {
    var t := RemoveUnderscoreRuns(text);
    var lines := SplitOn(t, '\n');
    var cleanedLines := FilterLines(lines);
    r := Join(cleanedLines, "\n");
  }

  /** The line loop of `clean_raw_text`. */
  method FilterLines(lines: seq<string>) returns (cleanedLines: seq<string>)
    ensures cleanedLines == KeptLines(lines)
  {
    cleanedLines := [];
    for i := 0 to |lines|
      invariant cleanedLines == KeptLines(lines[..i])
    {
      assert lines[..i + 1] == lines[..i] + [lines[i]];
      KeepStrippedSnoc(lines[..i], lines[i], KeepLine);
      var stripped := Trim(lines[i]);
      if stripped == [] {
        continue;
      }
      var low := Lower(stripped);
      if PageNumber(low) {
        continue;
      }
      if ContainsAny(low, Labels) {
        continue;
      }
      cleanedLines := cleanedLines + [stripped];
    }
    assert lines[..|lines|] == lines;
  }

  /** The cleaned text splits back into exactly the kept lines (when any line is kept). */
  lemma CleanedTextSplitsIntoKeptLines(text: string)
    requires KeptLines(SplitOn(RemoveUnderscoreRuns(text), '\n')) != []
    ensures SplitOn(CleanedText(text), '\n') == KeptLines(SplitOn(RemoveUnderscoreRuns(text), '\n'))
  {
    var lines := SplitOn(RemoveUnderscoreRuns(text), '\n');
    forall x | x in KeptLines(lines)
      ensures '\n' !in x
    {
      KeepStrippedQualifies(lines, KeepLine, x);
      var k :| 0 <= k < |lines| && x == Trim(lines[k]);
      TrimChars(lines[k]);
    }
    SplitOnJoin(KeptLines(lines), '\n');
  }

  // ---------------------------------------------------------------- the numbering separator

  /** The first position at or after `i` that is not a digit (`\d+` takes all of them). */
  function SkipDigits(s: string, i: nat): (j: nat)
    requires i <= |s|
    ensures i <= j <= |s| && (j == |s| || !IsDigit(s[j]))
    ensures forall k :: i <= k < j ==> IsDigit(s[k])
    decreases |s| - i
  {
    if i < |s| && IsDigit(s[i]) then SkipDigits(s, i + 1) else i
  }

  /** `(?:\.\d+)*`, as many groups as there are. */
  function SkipGroups(s: string, i: nat): (j: nat)
    requires i <= |s|
    ensures i <= j <= |s|
    decreases |s| - i
  {
    if i + 1 < |s| && s[i] == '.' && IsDigit(s[i + 1]) then SkipGroups(s, SkipDigits(s, i + 1)) else i
  }

  /**
   * Where a separator match starting at `i` ends, if one starts there.
   *
   * No backtracking can change the greedy choices before the trailing
   * punctuation: giving back whitespace, a digit or a `.digits` group leaves a
   * character the next item cannot match. For `\)?[\.\)]?\s+` after the number,
   * exactly one of "no punctuation", "one of `.` `)`", "`)` then one of `.` `)`"
   * can be followed by whitespace, since the punctuation characters are not
   * whitespace; the engine finds that one. `\s+` then takes all whitespace.
   */
  function SeparatorEnd(s: string, i: nat): (r: Option<nat>)
    requires i <= |s|
    ensures r.Some? ==> i < r.value <= |s| && s[i] == '\n' && IsSpace(s[r.value - 1])
  {
    if i == |s| || s[i] != '\n' then None else NumberThenSpace(s, SkipSpaces(s, i + 1))
  }

  /** `\(?\d+(?:\.\d+)*` and what follows it, from position `a`. */
  function NumberThenSpace(s: string, a: nat): (r: Option<nat>)
    requires a <= |s|
    ensures r.Some? ==> a < r.value <= |s| && IsSpace(s[r.value - 1])
  {
    var b := if a < |s| && s[a] == '(' then a + 1 else a;
    var c := SkipDigits(s, b);
    if c == b then None else PunctuationThenSpace(s, SkipGroups(s, c))
  }

  /** `\)?[\.\)]?\s+` from position `p`. */
  function PunctuationThenSpace(s: string, p: nat): (r: Option<nat>)
    requires p <= |s|
    ensures r.Some? ==> p < r.value <= |s| && IsSpace(s[r.value - 1])
  {
    var q :=
      if p < |s| && IsSpace(s[p]) then p
      else if p + 1 < |s| && (s[p] == '.' || s[p] == ')') && IsSpace(s[p + 1]) then p + 1
      else if p + 2 < |s| && s[p] == ')' && (s[p + 1] == '.' || s[p + 1] == ')') && IsSpace(s[p + 2]) then p + 2
      else |s|;
    if q == |s| then None else Some(SkipSpaces(s, q))
  }

  /**
   * `re.split(pattern, s[start..])` continued from position `i`: the pieces
   * between separator matches and the separators themselves. The search
   * resumes at the end of each match.
   */
  function SplitFrom(s: string, start: nat, i: nat): (r: (seq<string>, seq<string>))
    requires start <= i <= |s|
    ensures |r.0| == |r.1| + 1
    decreases |s| - i
  {
    if i == |s| then ([s[start..]], [])
    else
      match SeparatorEnd(s, i)
      case Some(e) =>
        var rest := SplitFrom(s, e, e);
        ([s[start..i]] + rest.0, [s[i..e]] + rest.1)
      case None => SplitFrom(s, start, i + 1)
  }

  function NumberingSplit(s: string): (pieces: seq<string>)
    ensures |pieces| >= 1
  {
    SplitFrom(s, 0, 0).0
  }

  /** Pieces and separators, interleaved. */
  function Interleave(pieces: seq<string>, seps: seq<string>): string
    requires |pieces| == |seps| + 1
  {
    if seps == [] then pieces[0] else pieces[0] + seps[0] + Interleave(pieces[1..], seps[1..])
  }

  /** Splitting loses nothing: the pieces and the separators between them spell the text. */
  lemma {:induction false} SplitFromRoundTrip(s: string, start: nat, i: nat)
    requires start <= i <= |s|
    ensures Interleave(SplitFrom(s, start, i).0, SplitFrom(s, start, i).1) == s[start..]
    decreases |s| - i
  {
    if i < |s| {
      var m := SeparatorEnd(s, i);
      if m.Some? {
        var e := m.value;
        SplitFromRoundTrip(s, e, e);
        SplitAtSeparator(s, start, i, e);
      } else {
        SplitFromRoundTrip(s, start, i + 1);
        assert SplitFrom(s, start, i) == SplitFrom(s, start, i + 1);
      }
    }
  }

  lemma SplitAtSeparator(s: string, start: nat, i: nat, e: nat)
    requires start <= i < |s| && SeparatorEnd(s, i) == Some(e)
    requires Interleave(SplitFrom(s, e, e).0, SplitFrom(s, e, e).1) == s[e..]
    ensures Interleave(SplitFrom(s, start, i).0, SplitFrom(s, start, i).1) == s[start..]
  {
    var rest := SplitFrom(s, e, e);
    assert SplitFrom(s, start, i) == ([s[start..i]] + rest.0, [s[i..e]] + rest.1);
    InterleaveCons(s[start..i], s[i..e], rest.0, rest.1);
    SliceThree(s, start, i, e);
  }

  lemma SliceThree(s: string, a: nat, b: nat, c: nat)
    requires a <= b <= c <= |s|
    ensures s[a..] == s[a..b] + s[b..c] + s[c..]
  {
    assert s[a..] == s[a..b] + s[b..];
    assert s[b..] == s[b..c] + s[c..];
  }

  lemma InterleaveCons(p: string, sep: string, pieces: seq<string>, seps: seq<string>)
    requires |pieces| == |seps| + 1
    ensures Interleave([p] + pieces, [sep] + seps) == p + sep + Interleave(pieces, seps)
  {
    assert ([p] + pieces)[1..] == pieces;
    assert ([sep] + seps)[1..] == seps;
  }

  /** Every separator starts at a line break and ends in whitespace. */
  lemma {:induction false} SeparatorsShape(s: string, start: nat, i: nat)
    requires start <= i <= |s|
    ensures forall k :: 0 <= k < |SplitFrom(s, start, i).1| ==>
      var sep := SplitFrom(s, start, i).1[k]; |sep| >= 2 && sep[0] == '\n' && IsSpace(sep[|sep| - 1])
    decreases |s| - i
  {
    if i < |s| {
      match SeparatorEnd(s, i)
      case Some(e) =>
        SeparatorsShape(s, e, e);
        SeparatorLongerThanBreak(s, i);
        var sep := s[i..e];
        assert |sep| >= 2 && sep[0] == '\n' && IsSpace(sep[|sep| - 1]);
        assert SplitFrom(s, start, i).1 == [sep] + SplitFrom(s, e, e).1;
      case None =>
        SeparatorsShape(s, start, i + 1);
    }
  }

  /** A separator holds a digit after its line break, so it is at least two characters long. */
  lemma SeparatorLongerThanBreak(s: string, i: nat)
    requires i < |s| && SeparatorEnd(s, i).Some?
    ensures SeparatorEnd(s, i).value >= i + 2
  {
    var e := SeparatorEnd(s, i).value;
    assert s[e - 1] != '\n' || e - 1 > i by {
      var a := SkipSpaces(s, i + 1);
      var b := if a < |s| && s[a] == '(' then a + 1 else a;
      assert IsDigit(s[b]);
    }
  }

  // ---------------------------------------------------------------- split_into_clauses

  const MinWords: nat := 15

  /** A fragment long enough to be a clause. */
  predicate LongEnough(c: string) { WordCount(c) >= MinWords }

  /** The fragments that survive: stripped, with at least 15 words, in order. */
  function LongFragments(pieces: seq<string>): seq<string> {
    KeepStripped(pieces, LongEnough)
  }

  /** `split_into_clauses(contract_text)`: cleaning comes first, then the split, then the filter. */
  method SplitIntoClauses(contractText: string) returns (cleaned: seq<string>)
    ensures cleaned == LongFragments(NumberingSplit(CleanedText(contractText)))
  {
    var text := CleanRawText(contractText);
    var clauses := NumberingSplit(text);
    cleaned := FilterFragments(clauses);
  }

  /** The fragment loop of `split_into_clauses`. */
  method FilterFragments(clauses: seq<string>) returns (cleaned: seq<string>)
    ensures cleaned == LongFragments(clauses)
  {
    cleaned := [];
    for i := 0 to |clauses|
      invariant cleaned == LongFragments(clauses[..i])
    {
      assert clauses[..i + 1] == clauses[..i] + [clauses[i]];
      KeepStrippedSnoc(clauses[..i], clauses[i], LongEnough);
      var clause := Trim(clauses[i]);
      if WordCount(clause) < MinWords {
        continue;
      }
      cleaned := cleaned + [clause];
    }
    assert clauses[..|clauses|] == clauses;
  }
}
