/**
 * tools/clause_classifier.py: keyword classification of a clause, with a
 * language-model fallback. The model's reply is the parameter `llm`.
 */
module ClauseClassifier {
  import opened Strs

  /** `CLAUSE_TYPES`, in dictionary (insertion) order. */
  const ClauseTypes: seq<(string, seq<string>)> := [
    ("termination", ["terminate", "termination", "cancel", "end this agreement"]),
    ("payment", ["payment", "fee", "compensation", "invoice", "charges"]),
    ("liability", ["liability", "indemnify", "damages", "loss"]),
    ("confidentiality", ["confidential", "non-disclosure", "nda"]),
    ("governing_law", ["governing law", "jurisdiction", "court"])
  ]

  const Unknown: string := "unknown"

  /** Some keyword of `types[t]` occurs in the lower-cased clause. */
  predicate TypeMatches(low: string, types: seq<(string, seq<string>)>, t: int)
    requires 0 <= t < |types|
  {
    ContainsAny(low, types[t].1)
  }

  /**
   * The first type at position `i` or later, in table order, with a matching
   * keyword (the nested loop with its early return).
   */
  function FirstMatchingType(low: string, types: seq<(string, seq<string>)>, i: nat): (r: string)
    requires i <= |types|
    requires forall t :: 0 <= t < |types| ==> types[t].0 != Unknown
    ensures r == Unknown <==> forall t :: i <= t < |types| ==> !TypeMatches(low, types, t)
    ensures r != Unknown ==>
      exists t :: i <= t < |types| && types[t].0 == r && TypeMatches(low, types, t)
        && forall u :: i <= u < t ==> !TypeMatches(low, types, u)
    decreases |types| - i
  {
    if i == |types| then Unknown
    else if ContainsAny(low, types[i].1) then
      assert TypeMatches(low, types, i);
      types[i].0
    else
      FirstMatchingType(low, types, i + 1)
  }

  /** `classify_clause_rule_based(clause)`. */
  function ClassifyRuleBased(clause: string): (r: string)
    ensures r == Unknown ==> forall t :: 0 <= t < |ClauseTypes| ==> !TypeMatches(Lower(clause), ClauseTypes, t)
    ensures (forall t :: 0 <= t < |ClauseTypes| ==> !TypeMatches(Lower(clause), ClauseTypes, t)) ==> r == Unknown
    ensures r != Unknown ==>
      exists t :: 0 <= t < |ClauseTypes| && ClauseTypes[t].0 == r
        && TypeMatches(Lower(clause), ClauseTypes, t)
        && forall u :: 0 <= u < t ==> !TypeMatches(Lower(clause), ClauseTypes, u)
  {
    assert forall t :: 0 <= t < |ClauseTypes| ==> ClauseTypes[t].0 != Unknown by {
      assert Unknown[0] == 'u';
      assert ClauseTypes[1].0[0] == 'p';
    }
    FirstMatchingType(Lower(clause), ClauseTypes, 0)
  }

  /** The rule result is always a key of the table or "unknown". */
  lemma RuleResultIsKnownLabel(clause: string)
    ensures ClassifyRuleBased(clause) in {"termination", "payment", "liability", "confidentiality", "governing_law", Unknown}
  {
  }

  /** `classify_clause(clause)`: the rule result, else the model's reply stripped and lower-cased. */
  function ClassifyClause(clause: string, llm: string -> string): (r: string)
    ensures ClassifyRuleBased(clause) != Unknown ==> r == ClassifyRuleBased(clause)
    ensures ClassifyRuleBased(clause) == Unknown ==> r == Lower(Trim(llm(clause)))
  {
    var rule := ClassifyRuleBased(clause);
    if rule != Unknown then rule else Lower(Trim(llm(clause)))
  }

  /** When a keyword matches, the language model is not consulted: its reply cannot change the result. */
  lemma RuleWinsOverModel(clause: string, llm1: string -> string, llm2: string -> string)
    requires ClassifyRuleBased(clause) != Unknown
    ensures ClassifyClause(clause, llm1) == ClassifyClause(clause, llm2)
  {
  }
}
