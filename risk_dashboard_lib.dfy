/**
 * The risk-dashboard helpers of the web front end: unwrapping the risk
 * report out of a result, counting items by one of their fields, and taking
 * the most frequent entries of such a count.
 */
module RiskDashboardLib {
  import opened Wrappers
  import opened Strs
  import opened Json
  import Ranking

  // ---------------------------------------------------------------- unwrapping the report

  /** `result?.full_report ?? result?.result ?? result`. */
  function ReportRoot(result: Option<Json>): Option<Json> {
    Coalesce(Coalesce(Chain(result, "full_report"), Chain(result, "result")), result)
  }

  /** `root?.risk_report ?? root?.risk_report?.risk_report ?? root?.risk_report ?? null`, as written. */
  function RiskReportOf(root: Option<Json>): Option<Json> {
    Coalesce(
      Coalesce(
        Coalesce(Chain(root, "risk_report"), Chain(Chain(root, "risk_report"), "risk_report")),
        Chain(root, "risk_report")),
      Some(Null))
  }

  /** The two fallbacks after the first `root?.risk_report` can never be reached with a non-nullish value. */
  lemma RiskReportFallbacksRedundant(root: Option<Json>)
    ensures RiskReportOf(root) == Coalesce(Chain(root, "risk_report"), Some(Null))
  {
    var first := Chain(root, "risk_report");
    if Nullish(first) {
      assert Chain(first, "risk_report") == None;
    }
  }

  /** `rr?.risk_report ?? rr ?? null`: the report object, one level of `risk_report` nesting removed. */
  function ReportObject(result: Option<Json>): Json {
    var rr := RiskReportOf(ReportRoot(result));
    Coalesce(Coalesce(Chain(rr, "risk_report"), rr), Some(Null)).value
  }

  /** `Array.isArray(v) ? v : []`. */
  function ArrayOr(v: Option<Json>): (items: seq<Json>)
    ensures !IsArray(v) ==> items == []
    ensures IsArray(v) ==> items == v.value.items
  {
    if IsArray(v) then v.value.items else []
  }

  datatype Report = Report(
    overallRiskScore: Option<Json>,
    overallRiskLevel: Option<string>,
    present: seq<Json>,
    additional: seq<Json>,
    missing: Json,
    missingFindings: seq<Json>)

  /**
   * `extractRiskReport` of the library: null when no report object is found;
   * otherwise the lists default to empty, the score is kept only when it is
   * a number and the level only when it is a string.
   */
  function ExtractRiskReport(result: Option<Json>): (r: Option<Report>)
    ensures r.None? <==> !JsTruthy(Some(ReportObject(result)))
    ensures r.Some? ==> var obj := ReportObject(result);
      && r.value.present == ArrayOr(Get(obj, "present_risks"))
      && r.value.additional == ArrayOr(Get(obj, "additional_risks"))
      && (r.value.overallRiskScore.Some? <==> IsNumber(Get(obj, "overall_risk_score")))
      && (r.value.overallRiskScore.Some? ==> r.value.overallRiskScore == Get(obj, "overall_risk_score"))
      && (r.value.overallRiskLevel.Some? <==> Get(obj, "overall_risk_level").Some? && Get(obj, "overall_risk_level").value.Str?)
      && (Nullish(Get(obj, "missing_risks")) ==> r.value.missing == Null && r.value.missingFindings == [])
      && r.value.missingFindings == ArrayOr(Get(r.value.missing, "findings"))
  {
    var obj := ReportObject(result);
    if !JsTruthy(Some(obj)) then None
    else
      var score := Get(obj, "overall_risk_score");
      var level := Get(obj, "overall_risk_level");
      var missing := Coalesce(Get(obj, "missing_risks"), Some(Null)).value;
      Some(Report(
        if IsNumber(score) then score else None,
        if level.Some? && level.value.Str? then Some(level.value.s) else None,
        ArrayOr(Get(obj, "present_risks")),
        ArrayOr(Get(obj, "additional_risks")),
        missing,
        ArrayOr(Chain(Some(missing), "findings"))))
  }

  /** A bare risk report handed over as the result itself is not found: only a `risk_report` field is looked at. */
  lemma BareReportNotFound(result: Option<Json>)
    requires Chain(result, "full_report").None? && Chain(result, "result").None? && Chain(result, "risk_report").None?
    ensures ExtractRiskReport(result).None?
  {
    assert ReportRoot(result) == result;
  }

  /** A report nested one level under `risk_report` is unwrapped; one not nested is taken as it is. */
  lemma NestedReportUnwrapped(result: Option<Json>)
    requires !Nullish(Chain(ReportRoot(result), "risk_report"))
    ensures var rr := Chain(ReportRoot(result), "risk_report");
      ReportObject(result) == (if Nullish(Chain(rr, "risk_report")) then rr.value else Chain(rr, "risk_report").value)
  {
    RiskReportFallbacksRedundant(ReportRoot(result));
  }

  // ---------------------------------------------------------------- counting

  /** `String(it?.[key] ?? "Unknown")`. */
  function ItemKey(it: Json, key: string, num: real -> string): (k: string)
    ensures Nullish(Get(it, key)) ==> k == "Unknown"
    ensures Get(it, key).Some? && Get(it, key).value.Str? ==> k == Get(it, key).value.s
  {
    JsString(Coalesce(Get(it, key), Some(Str("Unknown"))), num)
  }

  /** The keys of all items, in order. */
  function ItemKeys(arr: seq<Json>, key: string, num: real -> string): (ks: seq<string>)
    ensures |ks| == |arr|
    ensures forall i :: 0 <= i < |arr| ==> ks[i] == ItemKey(arr[i], key, num)
  {
    seq(|arr|, i requires 0 <= i < |arr| => ItemKey(arr[i], key, num))
  }

  /** A count record: keys in the order they were first met. */
  type Counts = seq<(string, nat)>

  /** `map[k] ?? 0`. */
  function CountOf(counts: Counts, k: string): nat {
    if counts == [] then 0
    else if counts[0].0 == k then counts[0].1
    else CountOf(counts[1..], k)
  }

  /** `map[k] = (map[k] ?? 0) + 1`: an existing key keeps its place, a new key goes last. */
  function Bump(counts: Counts, k: string): (r: Counts)
    ensures |r| == |counts| || r == counts + [(k, 1)]
    ensures CountOf(counts, k) == 0 && (forall i :: 0 <= i < |counts| ==> counts[i].0 != k) ==> r == counts + [(k, 1)]
  {
    if counts == [] then [(k, 1)]
    else if counts[0].0 == k then [(k, counts[0].1 + 1)] + counts[1..]
    else [counts[0]] + Bump(counts[1..], k)
  }

  /** The record `countBy` builds: each key bumped in turn. */
  function CountKeys(ks: seq<string>): Counts {
    if ks == [] then [] else Bump(CountKeys(ks[..|ks| - 1]), ks[|ks| - 1])
  }

  /** How many times `k` occurs in `ks`. */
  function Occurrences(ks: seq<string>, k: string): (n: nat)
    ensures n <= |ks|
  {
    if ks == [] then 0
    else Occurrences(ks[..|ks| - 1], k) + (if ks[|ks| - 1] == k then 1 else 0)
  }

  /** The sum of all counts. */
  function Total(counts: Counts): nat {
    if counts == [] then 0 else counts[0].1 + Total(counts[1..])
  }

  lemma {:induction false} BumpCounts(counts: Counts, k: string, other: string)
    ensures CountOf(Bump(counts, k), other) == CountOf(counts, other) + (if other == k then 1 else 0)
  {
    if counts != [] && counts[0].0 != k {
      BumpCounts(counts[1..], k, other);
    }
  }

  lemma {:induction false} BumpTotal(counts: Counts, k: string)
    ensures Total(Bump(counts, k)) == Total(counts) + 1
  {
    if counts != [] && counts[0].0 != k {
      BumpTotal(counts[1..], k);
    }
  }

  /** The record counts every key exactly as often as it occurs. */
  lemma {:induction false} CountsAreOccurrences(ks: seq<string>, k: string)
    ensures CountOf(CountKeys(ks), k) == Occurrences(ks, k)
  {
    if ks != [] {
      CountsAreOccurrences(ks[..|ks| - 1], k);
      BumpCounts(CountKeys(ks[..|ks| - 1]), ks[|ks| - 1], k);
    }
  }

  /** The counts add up to the number of items counted. */
  lemma {:induction false} CountsSumToLength(ks: seq<string>)
    ensures Total(CountKeys(ks)) == |ks|
  {
    if ks != [] {
      CountsSumToLength(ks[..|ks| - 1]);
      BumpTotal(CountKeys(ks[..|ks| - 1]), ks[|ks| - 1]);
    }
  }

  /** No key appears twice in a record. */
  predicate KeysDistinct(counts: Counts) {
    forall i, j :: 0 <= i < j < |counts| ==> counts[i].0 != counts[j].0
  }

  /** The set of keys a record holds. */
  function Keys(counts: Counts): set<string> {
    set i | 0 <= i < |counts| :: counts[i].0
  }

  /** The keys of a record with one more entry in front. */
  lemma KeysCons(c: (string, nat), rest: Counts)
    ensures Keys([c] + rest) == {c.0} + Keys(rest)
  {
    var s := [c] + rest;
    forall x | x in Keys(s) ensures x in {c.0} + Keys(rest) {
      var i :| 0 <= i < |s| && s[i].0 == x;
      if i > 0 { assert rest[i - 1].0 == x; }
    }
    forall x | x in {c.0} + Keys(rest) ensures x in Keys(s) {
      if x == c.0 {
        assert s[0].0 == x;
      } else {
        var i :| 0 <= i < |rest| && rest[i].0 == x;
        assert s[i + 1].0 == x;
      }
    }
  }

  /** A bump adds its own key and no other. */
  lemma {:induction false} BumpKeySet(counts: Counts, k: string)
    ensures Keys(Bump(counts, k)) == Keys(counts) + {k}
  {
    if counts == [] {
      assert Keys([(k, 1)]) == {k} by { KeysCons((k, 1), []); }
    } else {
      assert counts == [counts[0]] + counts[1..];
      KeysCons(counts[0], counts[1..]);
      if counts[0].0 == k {
        KeysCons((k, counts[0].1 + 1), counts[1..]);
      } else {
        BumpKeySet(counts[1..], k);
        KeysCons(counts[0], Bump(counts[1..], k));
      }
    }
  }

  /** A bump keeps the keys distinct. */
  lemma {:induction false} BumpKeys(counts: Counts, k: string)
    requires KeysDistinct(counts)
    ensures KeysDistinct(Bump(counts, k))
  {
    if counts != [] && counts[0].0 != k {
      var rest := Bump(counts[1..], k);
      assert KeysDistinct(counts[1..]);
      BumpKeys(counts[1..], k);
      BumpKeySet(counts[1..], k);
      assert Bump(counts, k) == [counts[0]] + rest;
      forall i | 0 <= i < |rest|
        ensures rest[i].0 != counts[0].0
      {
        assert rest[i].0 in Keys(rest);
        if rest[i].0 != k {
          var j :| 0 <= j < |counts[1..]| && counts[1..][j].0 == rest[i].0;
          assert counts[j + 1].0 == rest[i].0;
        }
      }
    }
  }

  /** Every key of the record is distinct. */
  lemma {:induction false} CountKeysDistinct(ks: seq<string>)
    ensures KeysDistinct(CountKeys(ks))
  {
    if ks != [] {
      CountKeysDistinct(ks[..|ks| - 1]);
      BumpKeys(CountKeys(ks[..|ks| - 1]), ks[|ks| - 1]);
    }
  }

  /** `countBy`: one pass over the items, bumping each item's key. */
  method CountBy(arr: seq<Json>, key: string, num: real -> string) returns (counts: Counts)
    ensures counts == CountKeys(ItemKeys(arr, key, num))
  {
    ghost var ks := ItemKeys(arr, key, num);
    counts := [];
    var i := 0;
    while i < |arr|
      invariant 0 <= i <= |arr|
      invariant counts == CountKeys(ks[..i])
    {
      assert ks[..i + 1][..i] == ks[..i];
      counts := Bump(counts, ItemKey(arr[i], key, num));
      i := i + 1;
    }
    assert ks[..|arr|] == ks;
  }

  /** What `countBy` promises: every item counted once under its key, null keys under "Unknown", no key twice. */
  lemma CountByMeaning(arr: seq<Json>, key: string, num: real -> string, k: string)
    ensures Total(CountKeys(ItemKeys(arr, key, num))) == |arr|
    ensures CountOf(CountKeys(ItemKeys(arr, key, num)), k) == Occurrences(ItemKeys(arr, key, num), k)
    ensures KeysDistinct(CountKeys(ItemKeys(arr, key, num)))
  {
    CountsSumToLength(ItemKeys(arr, key, num));
    CountsAreOccurrences(ItemKeys(arr, key, num), k);
    CountKeysDistinct(ItemKeys(arr, key, num));
  }

  // ---------------------------------------------------------------- the most frequent entries

  /** The comparator `b[1] - a[1]` as a descending sort key. */
  function CountKey(e: (string, nat)): Ranking.Key {
    (e.1, 0.0)
  }

  /** `topEntries`: the entries sorted by count, largest first, then `slice(0, n)`. */
  function TopEntries(counts: Counts, n: int): seq<(string, nat)> {
    Ranking.Slice(Ranking.SortDesc(counts, CountKey), n)
  }

  /**
   * The top entries are at most `n` entries of the record (all of them when
   * `n` is large enough), sorted by count, and none left out has a larger
   * count than one kept.
   */
  lemma TopEntriesAreTop(counts: Counts, n: int)
    ensures var t := TopEntries(counts, n);
      && (n >= 0 ==> |t| == (if n < |counts| then n else |counts|))
      && multiset(t) <= multiset(counts)
      && (forall i, j :: 0 <= i < j < |t| ==> t[i].1 >= t[j].1)
      && forall i, j :: 0 <= i < |t| <= j < |counts| ==> t[i].1 >= Ranking.SortDesc(counts, CountKey)[j].1
  {
    var t := TopEntries(counts, n);
    Ranking.SortedPrefix(counts, CountKey, t);
  }
}
