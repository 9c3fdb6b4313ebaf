/**
 * The workspace panel's text helpers: the caption and explanation of each run
 * mode, the audit view of the planner's plan, and the evidence view that
 * collects every clause id cited anywhere in a result.
 *
 * `JSON.stringify` is the parameter `stringify`, JavaScript's rendering of a
 * number is `num`, and the string-to-number conversion of `Number(s)` is
 * `parse` (`None` for a result that is `NaN` or infinite).
 */
module Workspace {
  import opened Wrappers
  import opened Strs
  import opened Json
  import opened AppContent

  const Dash: string := "\U{2014}"

  // ---------------------------------------------------------------- mode captions

  /** `modeLabel`: the caption of each mode in the mode picker. */
  function ModeLabel(m: RunMode): (caption: string)
    ensures caption != []
  {
    match m
    case Qa => "Query (QA)"
    case SummaryOnly => "Summary"
    case KeyClausesOnly => "Key clauses"
    case RiskOnly => "Risk report"
    case StructuredOnly => "Structured analysis"
    case UnclearOnly => "Unclear / missing"
    case LawyerQuestionsOnly => "Questions for lawyer"
    case FullReport => "Full report"
  }

  /** No two modes share a caption, so the caption identifies the mode. */
  lemma ModeLabelInjective(a: RunMode, b: RunMode)
    requires ModeLabel(a) == ModeLabel(b)
    ensures a == b
  {
  }

  /** `explainMode`: the one-line explanation under the picker (long literals are written in pieces). */
  function ExplainMode(m: RunMode): (text: string)
    ensures text != [] && text[|text| - 1] == '.'
  {
    match m
    case Qa => "Ask a specific question. " + "Uses retrieval + QA."
    case SummaryOnly => "One-page summary of the contract."
    case KeyClausesOnly => "Extract the most important clauses."
    case RiskOnly => "Find risks and red flags " + "with mitigation suggestions."
    case StructuredOnly => "Organized analysis (termination, " + "IP, payment, confidentiality, etc)."
    case UnclearOnly => "Detect vague / missing clauses " + "and ambiguity."
    case LawyerQuestionsOnly => "Generate questions to ask " + "a lawyer before signing."
    case FullReport => "Everything combined into one report."
  }

  // ---------------------------------------------------------------- plan audit

  const NoPlan: string := "No plan yet."

  /** `s?.tool ?? "—"`, as a template literal prints it. */
  function ToolText(step: Json, num: real -> string): string {
    JsString(Coalesce(Get(step, "tool"), Some(Str(Dash))), num)
  }

  /** `s?.args ? JSON.stringify(s.args) : "{}"`. */
  function ArgsText(step: Json, stringify: Json -> string): string {
    var args := Get(step, "args");
    if JsTruthy(args) then stringify(args.value) else "{}"
  }

  /** One numbered step line: number, tool and (unless they print as `{}`) the arguments, trimmed. */
  function StepLine(i: nat, step: Json, stringify: Json -> string, num: real -> string): string {
    var args := ArgsText(step, stringify);
    Trim(NatToString(i + 1) + ". " + ToolText(step, num) + " " + (if args != "{}" then args else ""))
  }

  /** `plan.steps.map(...)`: the step lines, in step order. */
  function StepLines(steps: seq<Json>, stringify: Json -> string, num: real -> string): (lines: seq<string>)
    ensures |lines| == |steps|
  {
    seq(|steps|, k requires 0 <= k < |steps| => StepLine(k, steps[k], stringify, num))
  }

  function StepsText(plan: Json, stringify: Json -> string, num: real -> string): string {
    var steps := Get(plan, "steps");
    if IsArray(steps) then Join(StepLines(steps.value.items, stringify, num), "\n") else Dash
  }

  function PlanHead(plan: Json, stringify: Json -> string, num: real -> string): string {
    var intent := Get(plan, "intent");
    var k := Get(plan, "k");
    (if JsTruthy(intent) then "Intent: " + JsString(intent, num) else "Intent: " + Dash)
    + "\n" + (if IsNumber(k) then "k: " + JsString(k, num) else "k: " + Dash)
    + "\n\nSteps:\n" + StepsText(plan, stringify, num)
  }

  function NotesText(plan: Json, num: real -> string): string {
    var notes := Get(plan, "notes");
    if JsTruthy(notes) then "\n\nNotes:\n" + JsString(notes, num) else ""
  }

  /** `formatPlan`: the plan as intent, k, numbered steps and any notes. */
  function FormatPlan(plan: Option<Json>, stringify: Json -> string, num: real -> string): (text: string)
    ensures !JsTruthy(plan) ==> text == NoPlan
    ensures JsTruthy(plan) ==> "Intent: " <= text
  {
    if !JsTruthy(plan) then NoPlan
    else PlanHead(plan.value, stringify, num) + NotesText(plan.value, num)
  }

  /** Every step line starts with its position counted from one and a full stop. */
  lemma StepNumbered(i: nat, step: Json, stringify: Json -> string, num: real -> string)
    ensures NatToString(i + 1) + "." <= StepLine(i, step, stringify, num)
  {
    var args := ArgsText(step, stringify);
    var p := NatToString(i + 1) + ".";
    var w := " " + ToolText(step, num) + " " + (if args != "{}" then args else "");
    assert NatToString(i + 1) + ". " + ToolText(step, num) + " " + (if args != "{}" then args else "") == p + w;
    assert (p + w)[0] == NatToString(i + 1)[0];
    TrimLeftIs(p + w, 0);
    TrimRightAppend(p, w);
  }

  /** Arguments that print as `{}` are left out, and so is the space before them. */
  lemma StepArgsOmitted(i: nat, step: Json, stringify: Json -> string, num: real -> string)
    requires ArgsText(step, stringify) == "{}"
    requires ToolText(step, num) != [] && !IsSpace(ToolText(step, num)[|ToolText(step, num)| - 1])
    ensures StepLine(i, step, stringify, num) == NatToString(i + 1) + ". " + ToolText(step, num)
  {
    var p := NatToString(i + 1) + ". " + ToolText(step, num);
    assert p + " " + "" == p + " ";
    assert (p + " ")[0] == NatToString(i + 1)[0];
    TrimLeftIs(p + " ", 0);
    TrimRightAppend(p, " ");
  }

  /** Other arguments follow the tool after one space. */
  lemma StepArgsShown(i: nat, step: Json, stringify: Json -> string, num: real -> string)
    requires ArgsText(step, stringify) != "{}"
    requires ArgsText(step, stringify) != [] && !IsSpace(ArgsText(step, stringify)[|ArgsText(step, stringify)| - 1])
    ensures StepLine(i, step, stringify, num) == NatToString(i + 1) + ". " + ToolText(step, num) + " " + ArgsText(step, stringify)
  {
    var p := NatToString(i + 1) + ". " + ToolText(step, num) + " " + ArgsText(step, stringify);
    assert p[0] == NatToString(i + 1)[0];
    TrimLeftIs(p, 0);
    TrimRightOfTrimmed(p);
  }

  /** When no step line holds a line break, the steps section splits back into exactly the step lines. */
  lemma StepsSplitBack(plan: Json, stringify: Json -> string, num: real -> string)
    requires IsArray(Get(plan, "steps")) && Get(plan, "steps").value.items != []
    requires forall k :: 0 <= k < |Get(plan, "steps").value.items| ==>
      '\n' !in StepLine(k, Get(plan, "steps").value.items[k], stringify, num)
    ensures SplitOn(StepsText(plan, stringify, num), '\n') == StepLines(Get(plan, "steps").value.items, stringify, num)
  {
    var lines := StepLines(Get(plan, "steps").value.items, stringify, num);
    assert forall k :: 0 <= k < |lines| ==> '\n' !in lines[k];
    SplitOnJoin(lines, '\n');
  }

  /** The notes section is added exactly when the notes are truthy; the rest of the text does not depend on them. */
  lemma NotesOnlyWhenTruthy(plan: Json, stringify: Json -> string, num: real -> string)
    requires JsTruthy(Some(plan))
    ensures !JsTruthy(Get(plan, "notes")) ==> FormatPlan(Some(plan), stringify, num) == PlanHead(plan, stringify, num)
    ensures JsTruthy(Get(plan, "notes")) ==>
      FormatPlan(Some(plan), stringify, num) == PlanHead(plan, stringify, num) + "\n\nNotes:\n" + JsString(Get(plan, "notes"), num)
  {
  }

  // ---------------------------------------------------------------- evidence

  /** `Number(x)` when it is finite; `None` for `NaN` and the infinities. */
  function FiniteNumber(x: Json, parse: string -> Option<real>, num: real -> string): Option<real> {
    match x
    case Null => Some(0.0)
    case Bool(b) => Some(if b then 1.0 else 0.0)
    case Num(n) => Some(n)
    case NaN => None
    case Str(s) => parse(s)
    case Arr(_) => parse(JsStringOf(x, num))
    case Obj(_) => parse(JsStringOf(x, num))
  }

  predicate Distinct(ids: seq<real>) {
    forall i, j :: 0 <= i < j < |ids| ==> ids[i] != ids[j]
  }

  // The reference: which ids a value holds, as a set.

  /** The finite numbers among the elements of a list. */
  function Added(xs: seq<Json>, parse: string -> Option<real>, num: real -> string): set<real> {
    if |xs| == 0 then {}
    else
      var n := FiniteNumber(xs[|xs| - 1], parse, num);
      Added(xs[..|xs| - 1], parse, num) + (if n.Some? then {n.value} else {})
  }

  /** What one object holds itself: its `citations` and `key_citations` lists and its non-null `clause_id`. */
  function OwnIds(fields: seq<(string, Json)>, parse: string -> Option<real>, num: real -> string): set<real> {
    var c := Lookup(fields, "citations");
    var kc := Lookup(fields, "key_citations");
    var id := Lookup(fields, "clause_id");
    (if IsArray(c) then Added(c.value.items, parse, num) else {})
    + (if IsArray(kc) then Added(kc.value.items, parse, num) else {})
    + (if !Nullish(id) then (var n := FiniteNumber(id.value, parse, num); if n.Some? then {n.value} else {}) else {})
  }

  /** Every id held by a value or by anything nested in it. */
  function Collected(node: Json, parse: string -> Option<real>, num: real -> string): set<real> {
    match node
    case Arr(items) => CollectedAll(items, parse, num)
    case Obj(fields) => OwnIds(fields, parse, num) + CollectedValues(node, |fields|, parse, num)
    case _ => {}
  }

  function CollectedAll(items: seq<Json>, parse: string -> Option<real>, num: real -> string): set<real>
    decreases items
  {
    if |items| == 0 then {}
    else CollectedAll(items[..|items| - 1], parse, num) + Collected(items[|items| - 1], parse, num)
  }

  /** The ids held by the values of the first `n` fields of an object. */
  function CollectedValues(node: Json, n: nat, parse: string -> Option<real>, num: real -> string): set<real>
    requires node.Obj? && n <= |node.fields|
    decreases node, n
  {
    if n == 0 then {}
    else CollectedValues(node, n - 1, parse, num) + Collected(node.fields[n - 1].1, parse, num)
  }

  // The walk: the JavaScript `Set` in insertion order.

  /** `clauseIds.add(n)` for a finite `n`: a new id goes last, a known one is ignored. */
  function AddId(ids: seq<real>, n: Option<real>): (r: seq<real>)
    ensures ids <= r && |r| <= |ids| + 1
    ensures Distinct(ids) ==> Distinct(r)
    ensures forall x :: x in r <==> x in ids || (n.Some? && x == n.value)
  {
    if n.None? || n.value in ids then ids else ids + [n.value]
  }

  /** `xs.forEach(add)`. */
  function AddEach(xs: seq<Json>, ids: seq<real>, parse: string -> Option<real>, num: real -> string): (r: seq<real>)
    ensures ids <= r
    ensures Distinct(ids) ==> Distinct(r)
  {
    if |xs| == 0 then ids
    else AddId(AddEach(xs[..|xs| - 1], ids, parse, num), FiniteNumber(xs[|xs| - 1], parse, num))
  }

  /** The ids one object adds before its values are walked. */
  function AddOwn(fields: seq<(string, Json)>, ids: seq<real>, parse: string -> Option<real>, num: real -> string): (r: seq<real>)
    ensures ids <= r
    ensures Distinct(ids) ==> Distinct(r)
  {
    var c := Lookup(fields, "citations");
    var kc := Lookup(fields, "key_citations");
    var id := Lookup(fields, "clause_id");
    var a := if IsArray(c) then AddEach(c.value.items, ids, parse, num) else ids;
    var b := if IsArray(kc) then AddEach(kc.value.items, a, parse, num) else a;
    if !Nullish(id) then AddId(b, FiniteNumber(id.value, parse, num)) else b
  }

  /** The set after `walk(node)`, starting from `ids`. */
  function Gather(node: Json, ids: seq<real>, parse: string -> Option<real>, num: real -> string): (r: seq<real>)
    ensures ids <= r
    ensures Distinct(ids) ==> Distinct(r)
    decreases node
  {
    match node
    case Arr(items) => GatherAll(items, ids, parse, num)
    case Obj(fields) => GatherValues(node, |fields|, AddOwn(fields, ids, parse, num), parse, num)
    case _ => ids
  }

  function GatherAll(items: seq<Json>, ids: seq<real>, parse: string -> Option<real>, num: real -> string): (r: seq<real>)
    ensures ids <= r
    ensures Distinct(ids) ==> Distinct(r)
    decreases items
  {
    if |items| == 0 then ids
    else Gather(items[|items| - 1], GatherAll(items[..|items| - 1], ids, parse, num), parse, num)
  }

  function GatherValues(node: Json, n: nat, ids: seq<real>, parse: string -> Option<real>, num: real -> string): (r: seq<real>)
    requires node.Obj? && n <= |node.fields|
    ensures ids <= r
    ensures Distinct(ids) ==> Distinct(r)
    decreases node, n
  {
    if n == 0 then ids
    else Gather(node.fields[n - 1].1, GatherValues(node, n - 1, ids, parse, num), parse, num)
  }

  /** `forEach(add)` over a list. */
  method AddAll(xs: seq<Json>, ids0: seq<real>, parse: string -> Option<real>, num: real -> string) returns (ids: seq<real>)
    ensures ids == AddEach(xs, ids0, parse, num)
  {
    ids := ids0;
    for i := 0 to |xs|
      invariant ids == AddEach(xs[..i], ids0, parse, num)
    {
      assert xs[..i + 1][..i] == xs[..i];
      var n := FiniteNumber(xs[i], parse, num);
      if n.Some? && n.value !in ids {
        ids := ids + [n.value];
      }
    }
    assert xs[..|xs|] == xs;
  }

  /** `walk`: adds to the set every id found in `node`, in the order it meets them. */
  method Walk(node: Json, ids0: seq<real>, parse: string -> Option<real>, num: real -> string) returns (ids: seq<real>)
    ensures ids == Gather(node, ids0, parse, num)
    decreases node, 1
  {
    ids := ids0;
    match node {
      case Arr(items) =>
        ids := WalkAll(items, ids, parse, num);
      case Obj(fields) =>
        var c := Lookup(fields, "citations");
        if IsArray(c) {
          ids := AddAll(c.value.items, ids, parse, num);
        }
        var kc := Lookup(fields, "key_citations");
        if IsArray(kc) {
          ids := AddAll(kc.value.items, ids, parse, num);
        }
        var id := Lookup(fields, "clause_id");
        if !Nullish(id) {
          var n := FiniteNumber(id.value, parse, num);
          if n.Some? && n.value !in ids {
            ids := ids + [n.value];
          }
        }
        assert ids == AddOwn(fields, ids0, parse, num);
        ids := WalkValues(node, ids, parse, num);
      case _ =>
    }
  }

  /** `for (const it of node) walk(it)`. */
  method WalkAll(items: seq<Json>, ids0: seq<real>, parse: string -> Option<real>, num: real -> string) returns (ids: seq<real>)
    ensures ids == GatherAll(items, ids0, parse, num)
    decreases items
  {
    ids := ids0;
    for i := 0 to |items|
      invariant ids == GatherAll(items[..i], ids0, parse, num)
    {
      assert items[..i + 1][..i] == items[..i];
      ids := Walk(items[i], ids, parse, num);
    }
    assert items[..|items|] == items;
  }

  /** `for (const v of Object.values(node)) walk(v)`. */
  method WalkValues(node: Json, ids0: seq<real>, parse: string -> Option<real>, num: real -> string)
    returns (ids: seq<real>)
    requires node.Obj?
    ensures ids == GatherValues(node, |node.fields|, ids0, parse, num)
    decreases node, 0
  {
    ids := ids0;
    for i := 0 to |node.fields|
      invariant ids == GatherValues(node, i, ids0, parse, num)
    {
      ids := Walk(node.fields[i].1, ids, parse, num);
    }
  }

  // The walk against the reference.

  lemma {:induction false} AddEachIsAdded(xs: seq<Json>, ids: seq<real>, parse: string -> Option<real>, num: real -> string)
    ensures forall x :: x in AddEach(xs, ids, parse, num) <==> x in ids || x in Added(xs, parse, num)
  {
    if |xs| > 0 {
      AddEachIsAdded(xs[..|xs| - 1], ids, parse, num);
    }
  }

  lemma AddOwnIsOwnIds(fields: seq<(string, Json)>, ids: seq<real>, parse: string -> Option<real>, num: real -> string)
    ensures forall x :: x in AddOwn(fields, ids, parse, num) <==> x in ids || x in OwnIds(fields, parse, num)
  {
    var c := Lookup(fields, "citations");
    var kc := Lookup(fields, "key_citations");
    var a := if IsArray(c) then AddEach(c.value.items, ids, parse, num) else ids;
    if IsArray(c) {
      AddEachIsAdded(c.value.items, ids, parse, num);
    }
    if IsArray(kc) {
      AddEachIsAdded(kc.value.items, a, parse, num);
    }
  }

  /** The walk finds exactly the ids the value holds at any depth (and keeps those it had). */
  lemma {:induction false} GatherIsCollected(node: Json, ids: seq<real>, parse: string -> Option<real>, num: real -> string)
    ensures forall x :: x in Gather(node, ids, parse, num) <==> x in ids || x in Collected(node, parse, num)
    decreases node
  {
    match node
    case Arr(items) =>
      GatherAllIsCollected(items, ids, parse, num);
    case Obj(fields) =>
      AddOwnIsOwnIds(fields, ids, parse, num);
      GatherValuesIsCollected(node, |fields|, AddOwn(fields, ids, parse, num), parse, num);
    case _ =>
  }

  lemma {:induction false} GatherAllIsCollected(items: seq<Json>, ids: seq<real>, parse: string -> Option<real>, num: real -> string)
    ensures forall x :: x in GatherAll(items, ids, parse, num) <==> x in ids || x in CollectedAll(items, parse, num)
    decreases items
  {
    if |items| > 0 {
      GatherAllIsCollected(items[..|items| - 1], ids, parse, num);
      GatherIsCollected(items[|items| - 1], GatherAll(items[..|items| - 1], ids, parse, num), parse, num);
    }
  }

  lemma {:induction false} GatherValuesIsCollected(node: Json, n: nat, ids: seq<real>, parse: string -> Option<real>, num: real -> string)
    requires node.Obj? && n <= |node.fields|
    ensures forall x :: x in GatherValues(node, n, ids, parse, num) <==> x in ids || x in CollectedValues(node, n, parse, num)
    decreases node, n
  {
    if n > 0 {
      GatherValuesIsCollected(node, n - 1, ids, parse, num);
      GatherIsCollected(node.fields[n - 1].1, GatherValues(node, n - 1, ids, parse, num), parse, num);
    }
  }

  // Sorting and the first 25.

  /** The position of a least element. */
  function LeastAt(xs: seq<real>): (i: nat)
    requires xs != []
    ensures i < |xs| && forall j :: 0 <= j < |xs| ==> xs[i] <= xs[j]
  {
    if |xs| == 1 then 0
    else
      var i := LeastAt(xs[..|xs| - 1]);
      if xs[i] <= xs[|xs| - 1] then i else |xs| - 1
  }

  function Without(xs: seq<real>, i: nat): (r: seq<real>)
    requires i < |xs| && Distinct(xs)
    ensures |r| == |xs| - 1 && Distinct(r)
    ensures forall x :: x in r <==> x in xs && x != xs[i]
  {
    var r := xs[..i] + xs[i + 1..];
    assert forall k :: 0 <= k < |r| ==> r[k] == if k < i then xs[k] else xs[k + 1];
    assert forall x :: x in xs && x != xs[i] ==> x in r by {
      forall x | x in xs && x != xs[i]
        ensures x in r
      {
        var k :| 0 <= k < |xs| && xs[k] == x;
        if k < i {
          assert r[k] == x;
        } else {
          assert r[k - 1] == x;
        }
      }
    }
    r
  }

  /**
   * `Array.from(ids).sort((a, b) => a - b).slice(0, n)` on distinct ids: the
   * `n` smallest, ascending.
   */
  function Smallest(xs: seq<real>, n: nat): (r: seq<real>)
    requires Distinct(xs)
    ensures |r| == if n < |xs| then n else |xs|
    ensures forall i, j :: 0 <= i < j < |r| ==> r[i] < r[j]
    ensures forall i :: 0 <= i < |r| ==> r[i] in xs
    ensures forall x :: x in xs && x !in r ==> forall i :: 0 <= i < |r| ==> r[i] < x
    ensures |xs| <= n ==> forall x :: x in xs ==> x in r
    decreases n
  {
    if n == 0 || xs == [] then []
    else
      var k := LeastAt(xs);
      [xs[k]] + Smallest(Without(xs, k), n - 1)
  }

  const NoEvidence: string := "Citations: " + Dash + "\n\nEvidence: " + Dash

  /** The citation line and the evidence list for the listed ids. */
  function EvidenceLines(ids: seq<real>, num: real -> string): string {
    if ids == [] then NoEvidence
    else
      "Citations: " + Join(seq(|ids|, i requires 0 <= i < |ids| => num(ids[i])), ", ")
      + "\n\nEvidence:\n" + Join(seq(|ids|, i requires 0 <= i < |ids| => "- Clause " + num(ids[i])), "\n")
  }

  /** The value `formatEvidence` walks: `result?.qa ?? result`. */
  function EvidenceRoot(result: Option<Json>): Option<Json> {
    Coalesce(Chain(result, "qa"), result)
  }

  /** The ids shown for a truthy result. */
  function EvidenceIds(result: Option<Json>, parse: string -> Option<real>, num: real -> string): seq<real>
    requires JsTruthy(result)
  {
    Smallest(Gather(EvidenceRoot(result).value, [], parse, num), 25)
  }

  function EvidenceText(result: Option<Json>, parse: string -> Option<real>, num: real -> string): string {
    if !JsTruthy(result) then NoEvidence else EvidenceLines(EvidenceIds(result, parse, num), num)
  }

  /** `formatEvidence`: the clause ids cited anywhere in the result, as a citation line and an evidence list. */
  method FormatEvidence(result: Option<Json>, parse: string -> Option<real>, num: real -> string) returns (text: string)
    ensures text == EvidenceText(result, parse, num)
  {
    if !JsTruthy(result) {
      return NoEvidence;
    }
    var root := EvidenceRoot(result);
    var ids := Walk(root.value, [], parse, num);
    text := EvidenceLines(Smallest(ids, 25), num);
  }

  /**
   * The listed ids are held somewhere in the walked value, distinct,
   * ascending and at most 25; every id held is listed when there are at
   * most 25, and an id left out is larger than every listed one.
   */
  lemma EvidenceIdsShape(result: Option<Json>, parse: string -> Option<real>, num: real -> string)
    requires JsTruthy(result)
    ensures var ids := EvidenceIds(result, parse, num);
      var held := Collected(EvidenceRoot(result).value, parse, num);
      |ids| <= 25
      && (forall i, j :: 0 <= i < j < |ids| ==> ids[i] < ids[j])
      && (forall i :: 0 <= i < |ids| ==> ids[i] in held)
      && (forall x :: x in held && x !in ids ==> |ids| == 25 && forall i :: 0 <= i < |ids| ==> ids[i] < x)
  {
    var root := EvidenceRoot(result).value;
    var all := Gather(root, [], parse, num);
    GatherIsCollected(root, [], parse, num);
    var ids := Smallest(all, 25);
    assert ids == EvidenceIds(result, parse, num);
  }

  /** With no ids held, the text is the same as for a missing result. */
  lemma NoIdsNoEvidence(result: Option<Json>, parse: string -> Option<real>, num: real -> string)
    requires JsTruthy(result) && Collected(EvidenceRoot(result).value, parse, num) == {}
    ensures EvidenceText(result, parse, num) == EvidenceText(None, parse, num)
  {
    var all := Gather(EvidenceRoot(result).value, [], parse, num);
    GatherIsCollected(EvidenceRoot(result).value, [], parse, num);
  }

  /** An object's `clause_id` is held by it when `Number` of it is finite, however deep the object sits. */
  lemma OwnClauseIdHeld(fields: seq<(string, Json)>, parse: string -> Option<real>, num: real -> string)
    requires !Nullish(Lookup(fields, "clause_id"))
    requires FiniteNumber(Lookup(fields, "clause_id").value, parse, num).Some?
    ensures FiniteNumber(Lookup(fields, "clause_id").value, parse, num).value in Collected(Obj(fields), parse, num)
  {
  }

  /** Whatever a field's value holds, the object holds too. */
  lemma {:induction false} FieldIdsHeld(node: Json, n: nat, i: nat, parse: string -> Option<real>, num: real -> string)
    requires node.Obj? && i < n <= |node.fields|
    ensures Collected(node.fields[i].1, parse, num) <= CollectedValues(node, n, parse, num)
    ensures n == |node.fields| ==> Collected(node.fields[i].1, parse, num) <= Collected(node, parse, num)
    decreases n
  {
    if i < n - 1 {
      FieldIdsHeld(node, n - 1, i, parse, num);
    }
  }
}
