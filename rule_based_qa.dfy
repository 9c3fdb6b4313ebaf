/** tools/rule_based_qa.py: the early-termination rule. */
module RuleBasedQa {
  import opened Strs

  // The literals are split so that the verifier sees their first characters.
  const Preamble: string := "Yes" + ", the contract allows early termination.\n\nRelevant clause:\n"
  const NoEarlyTermination: string := "No" + " explicit early termination clause was found."

  /** A clause speaks of early termination: it mentions "terminate" and a notice-like word (any case). */
  predicate Qualifies(clause: string) {
    var t := Lower(clause);
    Contains(t, "terminate")
    && (Contains(t, "notice") || Contains(t, "prior") || Contains(t, "before") || Contains(t, "early"))
  }

  /** `can_terminate_early(clauses)`: the first qualifying clause, quoted verbatim, or the sentinel. */
  function CanTerminateEarly(clauses: seq<string>): (r: string)
    ensures r == NoEarlyTermination || exists i :: 0 <= i < |clauses| && r == Preamble + clauses[i]
  {
    if clauses == [] then NoEarlyTermination
    else if Qualifies(clauses[0]) then Preamble + clauses[0]
    else
      var r := CanTerminateEarly(clauses[1..]);
      assert forall i :: 1 <= i < |clauses| ==> clauses[i] == clauses[1..][i - 1];
      r
  }

  /** The answer quotes the first clause, in input order, that qualifies. */
  lemma {:induction false} AnswerQuotesFirstQualifying(clauses: seq<string>, i: nat)
    requires i < |clauses| && Qualifies(clauses[i])
    requires forall j :: 0 <= j < i ==> !Qualifies(clauses[j])
    ensures CanTerminateEarly(clauses) == Preamble + clauses[i]
  {
    if i > 0 {
      assert !Qualifies(clauses[0]);
      AnswerQuotesFirstQualifying(clauses[1..], i - 1);
    }
  }

  /** When no clause qualifies (an empty list included) the answer is exactly the sentinel. */
  lemma {:induction false} NoQualifyingClause(clauses: seq<string>)
    requires forall j :: 0 <= j < |clauses| ==> !Qualifies(clauses[j])
    ensures CanTerminateEarly(clauses) == NoEarlyTermination
  {
    if clauses != [] {
      NoQualifyingClause(clauses[1..]);
    }
  }

  /** The answer starts with "Yes" if and only if some clause qualifies. */
  lemma YesIffSomeClauseQualifies(clauses: seq<string>)
    ensures "Yes" <= CanTerminateEarly(clauses) <==> exists i :: 0 <= i < |clauses| && Qualifies(clauses[i])
  {
    if exists i :: 0 <= i < |clauses| && Qualifies(clauses[i]) {
      var i := FirstQualifying(clauses);
      AnswerQuotesFirstQualifying(clauses, i);
      StartsWithYes(clauses[i]);
    } else {
      NoQualifyingClause(clauses);
      SentinelIsNotYes();
    }
  }

  lemma StartsWithYes(clause: string)
    ensures "Yes" <= Preamble + clause
  {
    var r := Preamble + clause;
    assert r[0] == 'Y' && r[1] == 'e' && r[2] == 's';
    assert r[..3] == "Yes";
  }

  lemma SentinelIsNotYes()
    ensures !("Yes" <= NoEarlyTermination)
  {
    assert NoEarlyTermination[0] == 'N';
  }

  lemma FirstQualifying(clauses: seq<string>) returns (i: nat)
    requires exists i :: 0 <= i < |clauses| && Qualifies(clauses[i])
    ensures i < |clauses| && Qualifies(clauses[i])
    ensures forall j :: 0 <= j < i ==> !Qualifies(clauses[j])
  {
    i := 0;
    while !Qualifies(clauses[i])
      invariant i < |clauses|
      invariant forall j :: 0 <= j < i ==> !Qualifies(clauses[j])
      invariant exists k :: i <= k < |clauses| && Qualifies(clauses[k])
      decreases |clauses| - i
    {
      i := i + 1;
    }
  }
}
