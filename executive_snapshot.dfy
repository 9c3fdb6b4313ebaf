/**
 * The executive snapshot card of the web front end: it finds the risk report
 * inside whatever result the back end returned, normalises risk levels and
 * the overall score, and derives the top red flags, the lawyer questions to
 * show and a one-word recommendation. The level rules and the report test are
 * shared with the risk dashboard, whose source repeats them verbatim.
 */
module ExecutiveSnapshot {
  import opened Wrappers
  import opened Strs
  import opened Json
  import Ranking

  // ---------------------------------------------------------------- finding the report

  /** `looksLikeRiskReport`: an object with a risk list or a missing-risk object, and some overall score. */
  predicate LooksLikeRiskReport(v: Option<Json>) {
    IsObject(v)
    && (IsArray(Chain(v, "present_risks")) || IsObject(Chain(v, "missing_risks")) || IsArray(Chain(v, "additional_risks")))
    && Chain(v, "overall_risk_score").Some?
  }

  /** The first candidate that looks like a risk report, if any. */
  function FirstReport(cands: seq<Option<Json>>): Option<Json> {
    if cands == [] then None
    else if LooksLikeRiskReport(cands[0]) then cands[0]
    else FirstReport(cands[1..])
  }

  /** What is found is a report-like object coming from the first candidate that qualifies; nothing is found only when none does. */
  lemma {:induction false} FirstReportIsFirst(cands: seq<Option<Json>>)
    ensures var r := FirstReport(cands);
      && (r.Some? ==> IsObject(r) && Chain(r, "overall_risk_score").Some?)
      && (r.Some? ==> exists k :: (0 <= k < |cands| && cands[k] == r
                                   && forall j :: 0 <= j < k ==> !LooksLikeRiskReport(cands[j])))
      && (r.None? <==> forall k :: 0 <= k < |cands| ==> !LooksLikeRiskReport(cands[k]))
  {
    if cands != [] && !LooksLikeRiskReport(cands[0]) {
      FirstReportIsFirst(cands[1..]);
      assert forall k :: 1 <= k < |cands| ==> cands[k] == cands[1..][k - 1];
      var r := FirstReport(cands);
      if r.Some? {
        var k :| 0 <= k < |cands[1..]| && cands[1..][k] == r
          && forall j :: 0 <= j < k ==> !LooksLikeRiskReport(cands[1..][j]);
        assert cands[k + 1] == r;
      }
    }
  }

  /** Searching two lists one after the other is searching their concatenation. */
  lemma {:induction false} FirstReportAppend(a: seq<Option<Json>>, b: seq<Option<Json>>)
    ensures FirstReport(a + b) == if FirstReport(a).Some? then FirstReport(a) else FirstReport(b)
  {
    if a != [] {
      assert (a + b)[0] == a[0];
      assert (a + b)[1..] == a[1..] + b;
      FirstReportAppend(a[1..], b);
    } else {
      assert a + b == b;
    }
  }

  /** The places the snapshot looks for a report, in the order it tries them. */
  function Candidates(result: Option<Json>): seq<Option<Json>> {
    [ result,
      Chain(result, "risk_report"),
      Chain(Chain(result, "full_report"), "risk_report"),
      Chain(result, "full_report"),
      Chain(Chain(result, "result"), "risk_report"),
      Chain(result, "result") ]
  }

  /** `extractRiskReport` of the snapshot: null for a falsy result, else the first place holding a report. */
  function ExtractRiskReport(result: Option<Json>): (rr: Option<Json>)
    ensures rr.Some? ==> JsTruthy(result) && IsObject(rr) && Chain(rr, "overall_risk_score").Some?
  {
    if !JsTruthy(result) then None
    else if LooksLikeRiskReport(result) then result
    else if LooksLikeRiskReport(Chain(result, "risk_report")) then Chain(result, "risk_report")
    else if LooksLikeRiskReport(Chain(Chain(result, "full_report"), "risk_report")) then Chain(Chain(result, "full_report"), "risk_report")
    else if LooksLikeRiskReport(Chain(result, "full_report")) then Chain(result, "full_report")
    else if LooksLikeRiskReport(Chain(Chain(result, "result"), "risk_report")) then Chain(Chain(result, "result"), "risk_report")
    else if LooksLikeRiskReport(Chain(result, "result")) then Chain(result, "result")
    else None
  }

  /** The extraction is exactly "the first candidate that qualifies"; the falsy-result guard never changes the answer. */
  lemma ExtractIsFirstCandidate(result: Option<Json>)
    ensures ExtractRiskReport(result) == FirstReport(Candidates(result))
  {
    var c := Candidates(result);
    assert c == [c[0], c[1], c[2], c[3], c[4], c[5]];
    FirstOfSix(c[0], c[1], c[2], c[3], c[4], c[5]);
  }

  lemma FirstOfSix(a: Option<Json>, b: Option<Json>, c: Option<Json>, d: Option<Json>, e: Option<Json>, f: Option<Json>)
    ensures FirstReport([a, b, c, d, e, f]) ==
      if LooksLikeRiskReport(a) then a
      else if LooksLikeRiskReport(b) then b
      else if LooksLikeRiskReport(c) then c
      else if LooksLikeRiskReport(d) then d
      else if LooksLikeRiskReport(e) then e
      else if LooksLikeRiskReport(f) then f
      else None
  {
    FirstReportCons(f, []);
    assert [f] + [] == [f];
    FirstReportCons(e, [f]);
    assert [e] + [f] == [e, f];
    FirstReportCons(d, [e, f]);
    assert [d] + [e, f] == [d, e, f];
    FirstReportCons(c, [d, e, f]);
    assert [c] + [d, e, f] == [c, d, e, f];
    FirstReportCons(b, [c, d, e, f]);
    assert [b] + [c, d, e, f] == [b, c, d, e, f];
    FirstReportCons(a, [b, c, d, e, f]);
    assert [a] + [b, c, d, e, f] == [a, b, c, d, e, f];
  }

  /** One step of the search: the head is taken when it qualifies, otherwise the search goes on. */
  lemma FirstReportCons(x: Option<Json>, rest: seq<Option<Json>>)
    ensures FirstReport([x] + rest) == if LooksLikeRiskReport(x) then x else FirstReport(rest)
  {
    assert ([x] + rest)[1..] == rest;
  }

  // ---------------------------------------------------------------- risk levels

  datatype Level = Low | Medium | High | Critical | Unknown

  /** The level's name as the views print it. */
  function LevelName(l: Level): string {
    match l
    case Low => "low"
    case Medium => "medium"
    case High => "high"
    case Critical => "critical"
    case Unknown => "unknown"
  }

  /** `String(lvl ?? "").toLowerCase()`. */
  function LevelText(lvl: Option<Json>, num: real -> string): string {
    Lower(JsString(Coalesce(lvl, Some(Str(""))), num))
  }

  /** The substring tests of `normalizeLevel`, in their order. */
  function LevelOfText(s: string): Level {
    if Contains(s, "critical") then Critical
    else if Contains(s, "high") then High
    else if Contains(s, "medium") || Contains(s, "med") then Medium
    else if Contains(s, "low") then Low
    else Unknown
  }

  /** `normalizeLevel`: a missing or null level is unknown. */
  function NormalizeLevel(lvl: Option<Json>, num: real -> string): (l: Level)
    ensures Nullish(lvl) ==> l == Unknown
  {
    LevelOfText(LevelText(lvl, num))
  }

  lemma MediumHasMed(s: string)
    ensures Contains(s, "medium") ==> Contains(s, "med")
  {
    if Contains(s, "medium") {
      var i :| 0 <= i <= |s| && OccursAt(s, "medium", i);
      assert s[i..i + 3] == s[i..i + 6][..3];
      assert OccursAt(s, "med", i);
    }
  }

  /**
   * The priority of the tests: a word earlier in critical, high, med(ium),
   * low wins over every later one, and the `"medium"` test is subsumed by
   * the `"med"` test.
   */
  lemma LevelPriority(s: string)
    ensures LevelOfText(s) == Critical <==> Contains(s, "critical")
    ensures LevelOfText(s) == High <==> !Contains(s, "critical") && Contains(s, "high")
    ensures LevelOfText(s) == Medium <==> !Contains(s, "critical") && !Contains(s, "high") && Contains(s, "med")
    ensures LevelOfText(s) == Low <==>
      !Contains(s, "critical") && !Contains(s, "high") && !Contains(s, "med") && Contains(s, "low")
    ensures LevelOfText(s) == Unknown <==>
      !Contains(s, "critical") && !Contains(s, "high") && !Contains(s, "med") && !Contains(s, "low")
  {
    MediumHasMed(s);
  }

  lemma FirstCharAbsent(hay: string, needle: string)
    requires needle != [] && needle[0] !in hay
    ensures !Contains(hay, needle)
  {
  }

  /** The matching is case-insensitive: upper-casing letters of a string level changes nothing. */
  lemma NormalizeIgnoresCase(s: string, num: real -> string)
    ensures NormalizeLevel(Some(Str(s)), num) == NormalizeLevel(Some(Str(Lower(s))), num)
  {
    LowerOfLower(Lower(s));
  }

  /** Every level's own name normalises back to that level. */
  lemma NormalizeName(l: Level, num: real -> string)
    ensures NormalizeLevel(Some(Str(LevelName(l))), num) == l
  {
    var n := LevelName(l);
    LowerOfLower(n);
    assert LevelText(Some(Str(n)), num) == n;
    match l
    case Low =>
      FirstCharAbsent(n, "critical");
      FirstCharAbsent(n, "high");
      FirstCharAbsent(n, "medium");
      FirstCharAbsent(n, "med");
      ContainsPrefix(n, "low");
    case Medium =>
      FirstCharAbsent(n, "critical");
      FirstCharAbsent(n, "high");
      ContainsPrefix(n, "medium");
    case High =>
      FirstCharAbsent(n, "critical");
      ContainsPrefix(n, "high");
    case Critical =>
      ContainsPrefix(n, "critical");
    case Unknown =>
      FirstCharAbsent(n, "critical");
      FirstCharAbsent(n, "high");
      FirstCharAbsent(n, "medium");
      FirstCharAbsent(n, "med");
      FirstCharAbsent(n, "low");
  }

  /** The level names `levelRank` knows. */
  const RankedNames: set<string> := {"critical", "high", "medium", "low"}

  /** `levelRank`: 4, 3, 2, 1 for critical, high, medium, low and 0 for anything else. */
  function LevelRank(lvl: string): (rank: nat)
    ensures rank <= 4
    ensures rank == 0 <==> lvl !in RankedNames
  {
    if lvl == "critical" then 4
    else if lvl == "high" then 3
    else if lvl == "medium" then 2
    else if lvl == "low" then 1
    else 0
  }

  /** The rank of a normalised level. */
  function Rank(l: Level): nat {
    LevelRank(LevelName(l))
  }

  /** Ranks order the levels strictly: unknown below low below medium below high below critical. */
  lemma RankOrdersLevels(a: Level, b: Level)
    ensures Rank(a) == Rank(b) <==> a == b
    ensures Rank(Unknown) == 0 && Rank(Unknown) < Rank(Low) < Rank(Medium) < Rank(High) < Rank(Critical)
  {
    assert LevelName(Unknown) !in RankedNames;
  }

  // ---------------------------------------------------------------- the score

  /** `Math.max(0, Math.min(1, x))`. */
  function Clamp01(x: real): (c: real)
    ensures 0.0 <= c <= 1.0
    ensures 0.0 <= x <= 1.0 ==> c == x
    ensures x < 0.0 ==> c == 0.0
    ensures x > 1.0 ==> c == 1.0
  {
    if x < 0.0 then 0.0 else if x > 1.0 then 1.0 else x
  }

  /**
   * `scoreTo01`: null unless the value is a number other than NaN; a value
   * above 1.5 is read as a percentage; the result is clamped to [0, 1].
   */
  function ScoreTo01(x: Option<Json>): (s: Option<real>)
    ensures s.Some? <==> x.Some? && x.value.Num?
    ensures s.Some? ==> 0.0 <= s.value <= 1.0
    ensures s.Some? && 0.0 <= x.value.n <= 1.0 ==> s.value == x.value.n
    ensures s.Some? && 1.0 < x.value.n <= 1.5 ==> s.value == 1.0
    ensures s.Some? && 1.5 < x.value.n <= 100.0 ==> s.value == x.value.n / 100.0
    ensures s.Some? && (x.value.n < 0.0 || x.value.n > 100.0) ==> s.value == (if x.value.n < 0.0 then 0.0 else 1.0)
  {
    if x.None? || !x.value.Num? then None
    else
      var v := x.value.n;
      Some(if v > 1.5 then Clamp01(v / 100.0) else Clamp01(v))
  }

  // ---------------------------------------------------------------- the recommendation

  datatype Rec = Rec(title: string, tone: string)

  const HighRisk: string := "HIGH RISK"
  const Review: string := "REVIEW"
  const Safe: string := "SAFE"

  /** What missing findings add to the score: 0.12 from four on, 0.06 from two on. */
  function MissingBump(missingCount: nat): (b: real)
    ensures 0.0 <= b <= 0.12
    ensures missingCount < 2 ==> b == 0.0
  {
    if missingCount >= 4 then 0.12 else if missingCount >= 2 then 0.06 else 0.0
  }

  /** `recLabel`: the bumped score, capped at 1, against the thresholds 0.67 and 0.34. */
  function RecLabel(score01: real, missingCount: nat): (rec: Rec)
    ensures rec.title in {HighRisk, Review, Safe}
    ensures rec.title == HighRisk <==> score01 + MissingBump(missingCount) >= 0.67
    ensures rec.title == Safe <==> score01 + MissingBump(missingCount) < 0.34
  {
    var raised := score01 + MissingBump(missingCount);
    var bumped := if raised < 1.0 then raised else 1.0;
    if bumped >= 0.67 then Rec(HighRisk, "bg-red-500/20 border-red-500/30 text-red-200")
    else if bumped >= 0.34 then Rec(Review, "bg-amber-500/20 border-amber-500/30 text-amber-200")
    else Rec(Safe, "bg-emerald-500/20 border-emerald-500/30 text-emerald-200")
  }

  /** How severe a recommendation is: 0 safe, 1 review, 2 high risk. */
  function Severity(rec: Rec): nat {
    if rec.title == HighRisk then 2 else if rec.title == Review then 1 else 0
  }

  /** A higher score or more missing findings never lower the recommendation. */
  lemma RecMonotone(s1: real, m1: nat, s2: real, m2: nat)
    requires s1 <= s2 && m1 <= m2
    ensures Severity(RecLabel(s1, m1)) <= Severity(RecLabel(s2, m2))
  {
    assert MissingBump(m1) <= MissingBump(m2);
  }

  /** Missing findings move the recommendation by at most one step. */
  lemma MissingMovesOneStep(score01: real, missingCount: nat)
    ensures Severity(RecLabel(score01, 0)) <= Severity(RecLabel(score01, missingCount)) <= Severity(RecLabel(score01, 0)) + 1
  {
  }

  // ---------------------------------------------------------------- the derived view

  /** `typeof a?.confidence === "number" ? a.confidence : 0`, with NaN read as 0. */
  function Confidence(a: Json): real {
    var c := Get(a, "confidence");
    if c.Some? && c.value.Num? then c.value.n else 0.0
  }

  /** The red-flag comparator's key: the level's rank, then the confidence. */
  function FlagKey(a: Json, num: real -> string): Ranking.Key {
    (Rank(NormalizeLevel(Get(a, "risk_level"), num)), Confidence(a))
  }

  function FlagKeyOf(num: real -> string): Json -> Ranking.Key {
    a => FlagKey(a, num)
  }

  /** `rr?.present_risks` when it is an array, else none. */
  function PresentRisks(rr: Option<Json>): seq<Json> {
    var p := Chain(rr, "present_risks");
    if IsArray(p) then p.value.items else []
  }

  /** The length of `rr?.missing_risks?.findings` when it is an array, else 0. */
  function MissingCount(rr: Option<Json>): nat {
    var f := Chain(Chain(rr, "missing_risks"), "findings");
    if IsArray(f) then |f.value.items| else 0
  }

  /** The first non-nullish of the four places lawyer questions may sit. */
  function LawyerQuestions(result: Option<Json>): Option<Json> {
    Coalesce(
      Coalesce(
        Coalesce(
          Coalesce(Chain(result, "questions_to_ask_lawyer"), Chain(Chain(result, "full_report"), "questions_to_ask_lawyer")),
          Chain(result, "lawyer_questions")),
        Chain(Chain(result, "full_report"), "lawyer_questions")),
      Some(Null))
  }

  datatype Snapshot = Snapshot(
    score01: Option<real>,
    presentCount: nat,
    missingCount: nat,
    topRedFlags: seq<Json>,
    lawyerTop: Option<seq<Json>>,
    rec: Option<Rec>)

  /**
   * The snapshot's `derived` value: the top three red flags by rank then
   * confidence, the first four lawyer questions when they form an array,
   * and a recommendation exactly when there is a score.
   */
  function Derive(result: Option<Json>, num: real -> string): (d: Snapshot)
    ensures var present := PresentRisks(ExtractRiskReport(result));
      && d.presentCount == |present|
      && |d.topRedFlags| == (if |present| < 3 then |present| else 3)
      && multiset(d.topRedFlags) <= multiset(present)
      && Ranking.SortedDesc(d.topRedFlags, FlagKeyOf(num))
    ensures d.score01 == ScoreTo01(Chain(ExtractRiskReport(result), "overall_risk_score"))
    ensures d.rec.None? <==> d.score01.None?
    ensures d.rec.Some? ==> d.rec.value == RecLabel(d.score01.value, d.missingCount)
    ensures d.lawyerTop.Some? <==> IsArray(LawyerQuestions(result))
    ensures d.missingCount == MissingCount(ExtractRiskReport(result))
    ensures d.lawyerTop.Some? ==>
      var items := LawyerQuestions(result).value.items;
      |d.lawyerTop.value| == (if |items| < 4 then |items| else 4) && d.lawyerTop.value <= items
  {
    var rr := ExtractRiskReport(result);
    var present := PresentRisks(rr);
    var missingCount := MissingCount(rr);
    var score01 := ScoreTo01(Chain(rr, "overall_risk_score"));
    var top := Ranking.Top(present, FlagKeyOf(num), 3);
    Ranking.TopIsTop(present, FlagKeyOf(num), 3);
    var qs := LawyerQuestions(result);
    var lawyerTop := if IsArray(qs) then Some(Take(qs.value.items, 4)) else None;
    var rec := if score01.None? then None else Some(RecLabel(score01.value, missingCount));
    Snapshot(score01, |present|, missingCount, top, lawyerTop, rec)
  }

  /** A present risk left out of the top three ranks no higher than any of the three. */
  lemma LeftOutFlagsRankLower(result: Option<Json>, num: real -> string, y: Json)
    requires y in multiset(PresentRisks(ExtractRiskReport(result)))
    requires y !in multiset(Derive(result, num).topRedFlags)
    ensures forall i :: 0 <= i < |Derive(result, num).topRedFlags| ==>
      Ranking.AtLeast(FlagKey(Derive(result, num).topRedFlags[i], num), FlagKey(y, num))
  {
    var present := PresentRisks(ExtractRiskReport(result));
    assert Derive(result, num).topRedFlags == Ranking.Top(present, FlagKeyOf(num), 3);
    Ranking.LeftOutRanksLower(present, FlagKeyOf(num), 3, y);
  }
}
