/** tools/question_router.py: routing a question to a clause type by keywords, in priority order. */
module QuestionRouter {
  import opened Strs

  const TerminationWords: seq<string> := ["terminate", "termination", "end contract", "early termination"]
  const PaymentWords: seq<string> := ["payment", "salary", "compensation", "fee", "remuneration"]
  const ConfidentialityWords: seq<string> := ["confidential", "nda", "non disclosure", "secrecy"]

  const Routes: set<string> := {"termination", "payment", "confidentiality", "general"}

  /** `route_question(question)`. */
  function RouteQuestion(question: string): (r: string)
    ensures r in Routes
  {
    var q := Lower(question);
    if ContainsAny(q, TerminationWords) then "termination"
    else if ContainsAny(q, PaymentWords) then "payment"
    else if ContainsAny(q, ConfidentialityWords) then "confidentiality"
    else "general"
  }

  /**
   * The routing table read as a specification: a category is chosen exactly
   * when one of its words occurs and no word of a higher-priority category does;
   * "general" exactly when no word occurs at all.
   */
  lemma RoutePriority(question: string)
    ensures var q := Lower(question);
      && (RouteQuestion(question) == "termination" <==> ContainsAny(q, TerminationWords))
      && (RouteQuestion(question) == "payment" <==>
            !ContainsAny(q, TerminationWords) && ContainsAny(q, PaymentWords))
      && (RouteQuestion(question) == "confidentiality" <==>
            !ContainsAny(q, TerminationWords) && !ContainsAny(q, PaymentWords)
            && ContainsAny(q, ConfidentialityWords))
      && (RouteQuestion(question) == "general" <==>
            !ContainsAny(q, TerminationWords + PaymentWords + ConfidentialityWords))
  {
    var q := Lower(question);
    var all := TerminationWords + PaymentWords + ConfidentialityWords;
    if ContainsAny(q, all) {
      var k :| 0 <= k < |all| && Contains(q, all[k]);
      if k < 4 {
        assert Contains(q, TerminationWords[k]);
      } else if k < 9 {
        assert Contains(q, PaymentWords[k - 4]);
      } else {
        assert Contains(q, ConfidentialityWords[k - 9]);
      }
    }
    if ContainsAny(q, TerminationWords) {
      var k :| 0 <= k < |TerminationWords| && Contains(q, TerminationWords[k]);
      assert all[k] == TerminationWords[k];
    }
    if ContainsAny(q, PaymentWords) {
      var k :| 0 <= k < |PaymentWords| && Contains(q, PaymentWords[k]);
      assert all[4 + k] == PaymentWords[k];
    }
    if ContainsAny(q, ConfidentialityWords) {
      var k :| 0 <= k < |ConfidentialityWords| && Contains(q, ConfidentialityWords[k]);
      assert all[9 + k] == ConfidentialityWords[k];
    }
  }

  /** Lower-casing is idempotent. */
  lemma LowerIdempotent(s: string)
    ensures Lower(Lower(s)) == Lower(s)
  {
    LowerOfLower(Lower(s));
  }

  /** Routing ignores letter case: a question and its lower-cased form go to the same place. */
  lemma RouteIgnoresCase(question: string)
    ensures RouteQuestion(question) == RouteQuestion(Lower(question))
  {
    LowerIdempotent(question);
  }
}
