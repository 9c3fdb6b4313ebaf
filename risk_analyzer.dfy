/** tools/risk_analyzer.py: a risk score from the clause types missing from the store. */
module RiskAnalyzer {
  import opened ContractStore

  datatype RiskReport = RiskReport(riskScore: int, riskLevel: string, findings: seq<string>)

  const MissingConfidentiality: string := "Missing confidentiality clause(High Risk)"
  const MissingTermination: string := "Missing termination clause(High Risk)"
  const MissingPayment: string := "Missing payment clause(Medium Risk)"

  /** The level thresholds: 4 and above is high, 2 and above medium. */
  function LevelOf(score: int): (level: string)
    ensures level == "HIGH RISK" <==> score >= 4
    ensures level == "MEDIUM RISK" <==> 2 <= score < 4
    ensures level == "LOW RISK" <==> score < 2
  {
    if score >= 4 then "HIGH RISK" else if score >= 2 then "MEDIUM RISK" else "LOW RISK"
  }

  function Indicator(b: bool): nat { if b then 1 else 0 }

  /** `analyze_contract_risk(store)`; the store is only read. */
  method AnalyzeContractRisk(store: ContractStore) returns (report: RiskReport)
    ensures var noConf := store.GetByType("confidentiality") == [];
            var noTerm := store.GetByType("termination") == [];
            var noPay := store.GetByType("payment") == [];
      report == RiskReport(Score(noConf, noTerm, noPay), LevelOf(Score(noConf, noTerm, noPay)), Findings(noConf, noTerm, noPay))
  {
    var riskScore := 0;
    var findings: seq<string> := [];

    var confidentiality := store.GetByType("confidentiality");
    if confidentiality == [] {
      riskScore := riskScore + 2;
      findings := findings + [MissingConfidentiality];
    }

    var termination := store.GetByType("termination");
    if termination == [] {
      riskScore := riskScore + 2;
      findings := findings + [MissingTermination];
    }

    var payment := store.GetByType("payment");
    if payment == [] {
      riskScore := riskScore + 1;
      findings := findings + [MissingPayment];
    }

    var level;
    if riskScore >= 4 {
      level := "HIGH RISK";
    } else if riskScore >= 2 {
      level := "MEDIUM RISK";
    } else {
      level := "LOW RISK";
    }
    report := RiskReport(riskScore, level, findings);
  }

  /** The score of a set of missing types. */
  function Score(noConf: bool, noTerm: bool, noPay: bool): int {
    2 * Indicator(noConf) + 2 * Indicator(noTerm) + Indicator(noPay)
  }

  function Findings(noConf: bool, noTerm: bool, noPay: bool): seq<string> {
    (if noConf then [MissingConfidentiality] else [])
    + (if noTerm then [MissingTermination] else [])
    + (if noPay then [MissingPayment] else [])
  }

  /** The score lies in 0..5 and there is one finding per missing type. */
  lemma ScoreAndFindings(noConf: bool, noTerm: bool, noPay: bool)
    ensures 0 <= Score(noConf, noTerm, noPay) <= 5
    ensures |Findings(noConf, noTerm, noPay)| == Indicator(noConf) + Indicator(noTerm) + Indicator(noPay)
  {
  }

  /**
   * High risk exactly when both high-risk types (confidentiality and
   * termination) are missing; low risk exactly when neither is, whatever
   * happens to payment.
   */
  lemma HighRiskMeans(noConf: bool, noTerm: bool, noPay: bool)
    ensures LevelOf(Score(noConf, noTerm, noPay)) == "HIGH RISK" <==> (noConf && noTerm)
    ensures LevelOf(Score(noConf, noTerm, noPay)) == "LOW RISK" <==> !noConf && !noTerm
  {
  }

  /** The findings name the missing types in the fixed order confidentiality, termination, payment. */
  lemma FindingsOrder(noConf: bool, noTerm: bool, noPay: bool)
    ensures noConf ==> Findings(noConf, noTerm, noPay)[0] == MissingConfidentiality
    ensures noPay ==> Findings(noConf, noTerm, noPay)[|Findings(noConf, noTerm, noPay)| - 1] == MissingPayment
    ensures noTerm ==> Findings(noConf, noTerm, noPay)[Indicator(noConf)] == MissingTermination
  {
  }

  /** A store with all three types scores 0, low risk, no findings. */
  lemma CompleteContract()
    ensures Score(false, false, false) == 0 && LevelOf(0) == "LOW RISK" && Findings(false, false, false) == []
  {
  }
}
