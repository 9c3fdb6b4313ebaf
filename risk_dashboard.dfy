/**
 * The risk dashboard card of the web front end: it finds the risk report
 * (trying two more places than the executive snapshot), counts the present
 * risks per level, lays the counts out as four chart bars, and lists the
 * eight highest-ranked risks.
 */
module RiskDashboard {
  import opened Wrappers
  import opened Json
  import Ranking
  import ES = ExecutiveSnapshot

  // ---------------------------------------------------------------- finding the report

  /** The dashboard's candidate places: the snapshot's six, then `report.risk_report` and `data.risk_report`. */
  function Candidates(result: Option<Json>): seq<Option<Json>> {
    ES.Candidates(result) + [Chain(Chain(result, "report"), "risk_report"), Chain(Chain(result, "data"), "risk_report")]
  }

  /** `extractRiskReport` of the dashboard. */
  function ExtractRiskReport(result: Option<Json>): (rr: Option<Json>)
    ensures rr.Some? ==> JsTruthy(result) && IsObject(rr) && Chain(rr, "overall_risk_score").Some?
  {
    if !JsTruthy(result) then None
    else if ES.LooksLikeRiskReport(result) then result
    else if ES.LooksLikeRiskReport(Chain(result, "risk_report")) then Chain(result, "risk_report")
    else if ES.LooksLikeRiskReport(Chain(Chain(result, "full_report"), "risk_report")) then Chain(Chain(result, "full_report"), "risk_report")
    else if ES.LooksLikeRiskReport(Chain(result, "full_report")) then Chain(result, "full_report")
    else if ES.LooksLikeRiskReport(Chain(Chain(result, "result"), "risk_report")) then Chain(Chain(result, "result"), "risk_report")
    else if ES.LooksLikeRiskReport(Chain(result, "result")) then Chain(result, "result")
    else if ES.LooksLikeRiskReport(Chain(Chain(result, "report"), "risk_report")) then Chain(Chain(result, "report"), "risk_report")
    else if ES.LooksLikeRiskReport(Chain(Chain(result, "data"), "risk_report")) then Chain(Chain(result, "data"), "risk_report")
    else None
  }

  /** The dashboard takes the first of its eight candidates that qualifies, and null when none does. */
  lemma ExtractIsFirstCandidate(result: Option<Json>)
    ensures ExtractRiskReport(result) == ES.FirstReport(Candidates(result))
  {
    var x, y := Chain(Chain(result, "report"), "risk_report"), Chain(Chain(result, "data"), "risk_report");
    ES.ExtractIsFirstCandidate(result);
    ES.FirstReportAppend(ES.Candidates(result), [x, y]);
    assert [x, y][1..] == [y] && [y][1..] == [];
    assert ES.FirstReport([y]) == if ES.LooksLikeRiskReport(y) then y else None;
    assert ES.FirstReport([x, y]) == if ES.LooksLikeRiskReport(x) then x else ES.FirstReport([y]);
  }

  /** Whenever the snapshot finds a report, the dashboard finds the same one. */
  lemma AgreesWithSnapshot(result: Option<Json>)
    ensures ES.ExtractRiskReport(result).Some? ==> ExtractRiskReport(result) == ES.ExtractRiskReport(result)
    ensures ES.ExtractRiskReport(result).None? && JsTruthy(result) ==>
      ExtractRiskReport(result) == ES.FirstReport([Chain(Chain(result, "report"), "risk_report"), Chain(Chain(result, "data"), "risk_report")])
  {
    var x, y := Chain(Chain(result, "report"), "risk_report"), Chain(Chain(result, "data"), "risk_report");
    assert [x, y][1..] == [y] && [y][1..] == [];
    assert ES.FirstReport([y]) == if ES.LooksLikeRiskReport(y) then y else None;
    assert ES.FirstReport([x, y]) == if ES.LooksLikeRiskReport(x) then x else ES.FirstReport([y]);
  }

  // ---------------------------------------------------------------- percentages

  /** `Math.round`: the nearest whole number, halves rounded up. */
  function Round(x: real): (r: int)
    ensures r as real - 0.5 <= x < r as real + 0.5
  {
    (x + 0.5).Floor
  }

  /** The whole number `pct` prints: a fraction up to 1 is scaled to a percentage, anything larger is taken as one. */
  function Percent(n: real): int {
    if n <= 1.0 then Round(n * 100.0) else Round(n)
  }

  /** `pct`: "—" unless the value is a number other than NaN; otherwise the rounded percentage and "%". */
  function Pct(n: Option<Json>, num: real -> string): (text: string)
    ensures text == Dash <==> !(n.Some? && n.value.Num?)
    ensures n.Some? && n.value.Num? ==> text == num(Percent(n.value.n) as real) + "%"
  {
    if n.None? || !n.value.Num? then Dash
    else
      var t := num(Percent(n.value.n) as real) + "%";
      assert t[|t| - 1] == '%' && Dash[|Dash| - 1] != '%';
      t
  }

  const Dash: string := "\U{2014}"

  /** A fraction in [0, 1] prints as a percentage in [0, 100] within half a point; a larger value prints as itself, rounded. */
  lemma PercentMeaning(n: real)
    ensures 0.0 <= n <= 1.0 ==> 0 <= Percent(n) <= 100
    ensures n <= 1.0 ==> n * 100.0 - 0.5 < Percent(n) as real <= n * 100.0 + 0.5
    ensures n > 1.0 ==> n - 0.5 < Percent(n) as real <= n + 0.5 && Percent(n) >= 1
  {
  }

  // ---------------------------------------------------------------- level counts

  /** The level of one present risk: `normalizeLevel(r?.risk_level)`. */
  function LevelOf(r: Json, num: real -> string): ES.Level {
    ES.NormalizeLevel(Get(r, "risk_level"), num)
  }

  /** `levelCounts[lvl] ?? 0`. */
  function CountIn(counts: map<ES.Level, nat>, l: ES.Level): nat {
    if l in counts then counts[l] else 0
  }

  /** The record the loop builds, one risk at a time. */
  function LevelTally(present: seq<Json>, num: real -> string): map<ES.Level, nat> {
    if present == [] then map[]
    else
      var counts := LevelTally(present[..|present| - 1], num);
      var l := LevelOf(present[|present| - 1], num);
      counts[l := CountIn(counts, l) + 1]
  }

  /** How many of the risks have level `l`. */
  function NumAt(present: seq<Json>, num: real -> string, l: ES.Level): (n: nat)
    ensures n <= |present|
  {
    if present == [] then 0
    else NumAt(present[..|present| - 1], num, l) + (if LevelOf(present[|present| - 1], num) == l then 1 else 0)
  }

  /** The five level counts together. */
  function AllCounts(counts: map<ES.Level, nat>): nat {
    CountIn(counts, ES.Low) + CountIn(counts, ES.Medium) + CountIn(counts, ES.High)
    + CountIn(counts, ES.Critical) + CountIn(counts, ES.Unknown)
  }

  /** Each level's count is the number of risks at that level. */
  lemma {:induction false} TallyCountsLevels(present: seq<Json>, num: real -> string, l: ES.Level)
    ensures CountIn(LevelTally(present, num), l) == NumAt(present, num, l)
  {
    if present != [] {
      TallyCountsLevels(present[..|present| - 1], num, l);
    }
  }

  /** The level counts sum to the number of present risks. */
  lemma {:induction false} TallySumsToLength(present: seq<Json>, num: real -> string)
    ensures AllCounts(LevelTally(present, num)) == |present|
  {
    if present != [] {
      TallySumsToLength(present[..|present| - 1], num);
      BumpAddsOne(LevelTally(present[..|present| - 1], num), LevelOf(present[|present| - 1], num));
    }
  }

  lemma BumpAddsOne(counts: map<ES.Level, nat>, l: ES.Level)
    ensures AllCounts(counts[l := CountIn(counts, l) + 1]) == AllCounts(counts) + 1
  {
    var m := counts[l := CountIn(counts, l) + 1];
    match l
    case Low => assert CountIn(m, ES.Low) == CountIn(counts, ES.Low) + 1;
    case Medium => assert CountIn(m, ES.Medium) == CountIn(counts, ES.Medium) + 1;
    case High => assert CountIn(m, ES.High) == CountIn(counts, ES.High) + 1;
    case Critical => assert CountIn(m, ES.Critical) == CountIn(counts, ES.Critical) + 1;
    case Unknown => assert CountIn(m, ES.Unknown) == CountIn(counts, ES.Unknown) + 1;
  }

  /** The `for (const r of present)` loop filling `levelCounts`. */
  method LevelCounts(present: seq<Json>, num: real -> string) returns (counts: map<ES.Level, nat>)
    ensures counts == LevelTally(present, num)
  {
    counts := map[];
    var i := 0;
    while i < |present|
      invariant 0 <= i <= |present|
      invariant counts == LevelTally(present[..i], num)
    {
      assert present[..i + 1][..i] == present[..i];
      var lvl := LevelOf(present[i], num);
      counts := counts[lvl := CountIn(counts, lvl) + 1];
      i := i + 1;
    }
    assert present[..|present|] == present;
  }

  // ---------------------------------------------------------------- chart rows

  /** `ORDER`: the charted levels, lowest first. */
  const Order: seq<ES.Level> := [ES.Low, ES.Medium, ES.High, ES.Critical]

  /** `LEVEL_COLORS`. */
  function LevelColor(l: ES.Level): string {
    match l
    case Low => "#34D399"
    case Medium => "#FBBF24"
    case High => "#FB7185"
    case Critical => "#A78BFA"
    case Unknown => "#94A3B8"
  }

  datatype ChartRow = ChartRow(level: string, count: nat, fill: string)

  /** `ORDER.map(...)`: one bar per charted level with its count and colour. */
  function ChartData(counts: map<ES.Level, nat>): (rows: seq<ChartRow>)
    ensures |rows| == 4
    ensures rows[0].level == "low" && rows[1].level == "medium" && rows[2].level == "high" && rows[3].level == "critical"
  {
    seq(4, i requires 0 <= i < 4 => ChartRow(ES.LevelName(Order[i]), CountIn(counts, Order[i]), LevelColor(Order[i])))
  }

  /** The bars add up to every present risk except the unknown-level ones, which are counted but not charted. */
  lemma ChartOmitsOnlyUnknown(present: seq<Json>, num: real -> string)
    ensures var rows := ChartData(LevelTally(present, num));
      rows[0].count + rows[1].count + rows[2].count + rows[3].count + NumAt(present, num, ES.Unknown) == |present|
  {
    TallySumsToLength(present, num);
    TallyCountsLevels(present, num, ES.Unknown);
  }

  // ---------------------------------------------------------------- the derived view

  /** The top-risk comparator's key: the rank of the normalised level. */
  function RiskKey(r: Json, num: real -> string): Ranking.Key {
    (ES.Rank(LevelOf(r, num)), 0.0)
  }

  function RiskKeyOf(num: real -> string): Json -> Ranking.Key {
    r => RiskKey(r, num)
  }

  datatype Dashboard = Dashboard(
    presentCount: nat,
    missingCount: nat,
    overallScore: Option<Json>,
    chartData: seq<ChartRow>,
    topRisks: seq<Json>)

  /**
   * The dashboard's `derived` value: nothing without a report; otherwise the
   * counts, the four chart bars and the eight highest-ranked risks.
   */
  method Derive(result: Option<Json>, num: real -> string) returns (d: Option<Dashboard>)
    ensures d.None? <==> ExtractRiskReport(result).None?
    ensures d.Some? ==> var rr := ExtractRiskReport(result); var present := ES.PresentRisks(rr);
      && d.value.presentCount == |present|
      && d.value.missingCount == ES.MissingCount(rr)
      && d.value.overallScore == Chain(rr, "overall_risk_score")
      && d.value.chartData == ChartData(LevelTally(present, num))
      && d.value.topRisks == Ranking.Top(present, RiskKeyOf(num), 8)
      && |d.value.topRisks| == (if |present| < 8 then |present| else 8)
      && multiset(d.value.topRisks) <= multiset(present)
      && Ranking.SortedDesc(d.value.topRisks, RiskKeyOf(num))
  {
    var rr := ExtractRiskReport(result);
    if rr.None? {
      return None;
    }
    var present := ES.PresentRisks(rr);
    var counts := LevelCounts(present, num);
    var top := Ranking.Top(present, RiskKeyOf(num), 8);
    Ranking.TopIsTop(present, RiskKeyOf(num), 8);
    d := Some(Dashboard(|present|, ES.MissingCount(rr), Chain(rr, "overall_risk_score"), ChartData(counts), top));
  }
}
