/**
 * tools/unclear_detector.py: flags clauses with blank values and clauses
 * with vague wording, at most one issue of each kind per clause.
 *
 * The regular expressions are modelled by what they match: a run of three
 * underscores, or a phrase delimited by `\b` word boundaries on both sides.
 * Every phrase starts and ends with a word character, so `\b` before it means
 * "at the start or after a non-word character", and likewise after it.
 * `re.IGNORECASE` on the raw text is matching on the lower-cased text.
 */
module UnclearDetector {
  import opened Wrappers
  import opened Strs
  import opened ContractStore

  /** `phrase` occurs at `i` with a word boundary on each side. */
  predicate WordAt(s: string, phrase: string, i: int) {
    && OccursAt(s, phrase, i)
    && (i == 0 || !IsWordChar(s[i - 1]))
    && (i + |phrase| == |s| || !IsWordChar(s[i + |phrase|]))
  }

  /** `re.search(r"\b" + phrase + r"\b", s)` for a phrase that starts and ends with a word character. */
  predicate WordMatch(s: string, phrase: string) {
    exists i | 0 <= i <= |s| :: WordAt(s, phrase, i)
  }

  /** A pattern of the two tables. */
  datatype Pattern =
    | UnderscoreRun              // `_{3,}`
    | Phrase(alts: seq<string>)  // `\b(alt1|alt2|...)\b`; `N/?A` has the two alternatives "na" and "n/a"

  predicate Matches(p: Pattern, s: string) {
    match p
    case UnderscoreRun => Contains(s, "___")
    case Phrase(alts) => exists k | 0 <= k < |alts| :: WordMatch(s, alts[k])
  }

  /** `BLANK_PATTERNS`, lower-cased (they are applied with `re.IGNORECASE`). */
  const BlankPatterns: seq<Pattern> := [
    UnderscoreRun,
    Phrase(["tbd"]),
    Phrase(["to be decided"]),
    Phrase(["to be determined"]),
    Phrase(["na", "n/a"])
  ]

  /** `VAGUE_PATTERNS`. */
  const VaguePatterns: seq<Pattern> := [
    Phrase(["reasonable"]),
    Phrase(["as decided by"]),
    Phrase(["at the discretion of"]),
    Phrase(["from time to time"]),
    Phrase(["may be amended"]),
    Phrase(["subject to"]),
    Phrase(["as per company policy"])
  ]

  predicate AnyMatches(ps: seq<Pattern>, s: string) {
    exists j | 0 <= j < |ps| :: Matches(ps[j], s)
  }

  predicate HasBlank(text: string) { AnyMatches(BlankPatterns, Lower(text)) }
  predicate IsVague(text: string) { AnyMatches(VaguePatterns, Lower(text)) }

  datatype IssueType = MissingValue | VagueLanguage

  /** `{"clause_id": ..., "issue_type": ..., "snippet": ...}`. */
  datatype Issue = Issue(clauseId: int, issueType: IssueType, snippet: string)

  const SnippetLimit: nat := 500

  /** The message of the `KeyError` raised by `c["clause_id"]` on a record without that key. */
  const MissingClauseId: string := "KeyError: 'clause_id'"

  /** A clause raises some issue. */
  predicate Flagged(text: string) { HasBlank(text) || IsVague(text) }

  /** The issues one clause raises, in the order they are appended. */
  function ClauseIssues(c: Record): (r: seq<Issue>)
    requires c.clauseId.Some?
    ensures |r| == (if HasBlank(c.text) then 1 else 0) + (if IsVague(c.text) then 1 else 0)
  {
    var snippet := Take(c.text, SnippetLimit);
    (if HasBlank(c.text) then [Issue(c.clauseId.value, MissingValue, snippet)] else [])
    + (if IsVague(c.text) then [Issue(c.clauseId.value, VagueLanguage, snippet)] else [])
  }

  /** The outcome of the whole scan: the issues in store order, or the `KeyError` of the first flagged clause without an id. */
  function Scan(clauses: seq<Record>): Result<seq<Issue>, string> {
    if clauses == [] then Ok([])
    else
      var c := clauses[|clauses| - 1];
      match Scan(clauses[..|clauses| - 1])
      case Err(e) => Err(e)
      case Ok(prev) =>
        if !Flagged(c.text) then Ok(prev)
        else if c.clauseId.None? then Err(MissingClauseId)
        else Ok(prev + ClauseIssues(c))
  }

  /** The first pattern loop of a clause: is there a pattern that matches? (the loop breaks at the first one) */
  method FirstMatch(ps: seq<Pattern>, s: string) returns (found: bool)
    ensures found <==> AnyMatches(ps, s)
  {
    found := false;
    var j := 0;
    while j < |ps|
      invariant 0 <= j <= |ps|
      invariant forall q :: 0 <= q < j ==> !Matches(ps[q], s)
    {
      if Matches(ps[j], s) {
        found := true;
        break;
      }
      j := j + 1;
    }
  }

  /** `find_unclear_or_missing(store)` over `store.clauses`. */
  method FindUnclearOrMissing(clauses: seq<Record>) returns (r: Result<seq<Issue>, string>)
    ensures r == Scan(clauses)
  {
    var issues: seq<Issue> := [];
    for i := 0 to |clauses|
      invariant Scan(clauses[..i]) == Ok(issues)
    {
      assert clauses[..i + 1][..i] == clauses[..i];
      var c := clauses[i];
      ghost var prev := issues;
      var low := Lower(c.text);
      var blank := FirstMatch(BlankPatterns, low);
      if blank {
        if c.clauseId.None? {
          ScanStaysErr(clauses, i + 1);
          return Err(MissingClauseId);
        }
        issues := issues + [Issue(c.clauseId.value, MissingValue, Take(c.text, SnippetLimit))];
      }
      var vague := FirstMatch(VaguePatterns, low);
      if vague {
        if c.clauseId.None? {
          ScanStaysErr(clauses, i + 1);
          return Err(MissingClauseId);
        }
        issues := issues + [Issue(c.clauseId.value, VagueLanguage, Take(c.text, SnippetLimit))];
      }
      if blank || vague {
        assert issues == prev + ClauseIssues(c);
      }
    }
    assert clauses[..|clauses|] == clauses;
    r := Ok(issues);
  }

  /** Once the scan of a prefix fails, the scan of the whole list fails with the same error. */
  lemma {:induction false} ScanStaysErr(clauses: seq<Record>, n: nat)
    requires n <= |clauses| && Scan(clauses[..n]).Err?
    ensures Scan(clauses) == Scan(clauses[..n])
    decreases |clauses| - n
  {
    if n < |clauses| {
      assert clauses[..n + 1][..n] == clauses[..n];
      ScanStaysErr(clauses, n + 1);
    } else {
      assert clauses[..n] == clauses;
    }
  }

  // ---------------------------------------------------------------------
  // Properties.

  /** An empty store has no issues. */
  lemma EmptyStoreHasNoIssues()
    ensures Scan([]) == Ok([])
  {
  }

  /**
   * Per clause: at most one "missing_value" and at most one "vague_language"
   * issue, the first before the second; both quote the clause's id and the
   * first 500 characters of its text.
   */
  lemma ClauseIssuesShape(c: Record)
    requires c.clauseId.Some?
    ensures |ClauseIssues(c)| <= 2
    ensures forall k :: 0 <= k < |ClauseIssues(c)| ==>
      ClauseIssues(c)[k].clauseId == c.clauseId.value && ClauseIssues(c)[k].snippet <= c.text
      && |ClauseIssues(c)[k].snippet| <= SnippetLimit
    ensures HasBlank(c.text) ==> ClauseIssues(c)[0].issueType == MissingValue
    ensures IsVague(c.text) ==> ClauseIssues(c)[|ClauseIssues(c)| - 1].issueType == VagueLanguage
  {
  }

  /** Issues follow store order: scanning a concatenation concatenates the issues. */
  lemma {:induction false} ScanAppend(a: seq<Record>, b: seq<Record>)
    requires Scan(a).Ok? && Scan(b).Ok?
    ensures Scan(a + b) == Ok(Scan(a).value + Scan(b).value)
  {
    if b != [] {
      var b' := b[..|b| - 1];
      var c := b[|b| - 1];
      assert (a + b)[..|a + b| - 1] == a + b';
      assert (a + b)[|a + b| - 1] == c;
      assert Scan(b').Ok? by {
        if Scan(b').Err? {
          assert Scan(b).Err?;
        }
      }
      ScanAppend(a, b');
      if Flagged(c.text) {
        var x, y := Scan(a).value, Scan(b').value;
        assert x + y + ClauseIssues(c) == x + (y + ClauseIssues(c));
      }
    } else {
      assert a + b == a;
      assert Scan(a).value + [] == Scan(a).value;
    }
  }

  /** A clause without issues contributes nothing, whatever its id. */
  lemma CleanClauseContributesNothing(prefix: seq<Record>, c: Record)
    requires Scan(prefix).Ok? && !HasBlank(c.text) && !IsVague(c.text)
    ensures Scan(prefix + [c]) == Scan(prefix)
  {
    assert (prefix + [c])[..|prefix|] == prefix;
  }

  /**
   * Against the records `ContractStore` writes (which never carry "clause_id"),
   * the scan succeeds exactly when no clause is flagged, and then finds nothing.
   */
  lemma {:induction false} NoIdsMeansErrorOnFirstFlag(clauses: seq<Record>)
    requires forall i :: 0 <= i < |clauses| ==> clauses[i].clauseId.None?
    ensures Scan(clauses).Ok? <==> forall i :: 0 <= i < |clauses| ==> !HasBlank(clauses[i].text) && !IsVague(clauses[i].text)
    ensures Scan(clauses).Ok? ==> Scan(clauses).value == []
    ensures Scan(clauses).Err? ==> Scan(clauses).error == MissingClauseId
  {
    if clauses != [] {
      var init := clauses[..|clauses| - 1];
      assert forall i :: 0 <= i < |init| ==> init[i] == clauses[i];
      NoIdsMeansErrorOnFirstFlag(init);
    }
  }

  /** Blank-value matching ignores case: a text and its lower-cased form are flagged alike. */
  lemma BlankIgnoresCase(text: string)
    ensures HasBlank(text) <==> HasBlank(Lower(text))
  {
    LowerOfLower(Lower(text));
  }
}
