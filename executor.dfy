/**
 * agents/executor.py: the tool registry, the fallback rule of `_run_qa`, and
 * `execute` in its two modes (a list of steps, or a single intent).
 *
 * The tools themselves are not modelled. A `Call` records which registered
 * callable `execute` invokes and with which arguments, and `Env.run` is the
 * value that call returns. The QA path goes through `Env.search`,
 * `Env.ruleAnswer` and `Env.llmAnswer`. Python exceptions that `execute`
 * itself can raise come back as `Err` with the exception's name.
 */
module Executor {
  import opened Wrappers
  import opened Strs
  import opened Json
  import Planner

  /** What `execute` passes a tool: the clause store, the vector store, or a plain value. */
  datatype Arg = ContractStoreArg | VectorStoreArg | Value(v: Json)

  /** One tool invocation: the registered name, the positional arguments and the keyword arguments. */
  datatype Call = Call(tool: string, args: seq<Arg>, kwargs: seq<(string, Json)>)

  /** The collaborators `execute` reaches, and the query it was given. */
  datatype Env = Env(
    userQuery: string,
    run: Call -> Json,                                  // the registered tools
    search: (string, Json) -> seq<Json>,                // vector_store.search(query, k=k)
    ruleAnswer: (string, seq<Json>) -> Option<string>,  // the rule-based answer (None for Python None)
    llmAnswer: (string, seq<Json>) -> string,           // answer_with_llm
    num: real -> string,                                // str() of a number
    repr: Json -> string)                               // str() of a list or dict

  /** The keys of `TOOL_REGISTRY`. */
  const Registry: set<string> := {
    "build_full_report", "analyze_full_contract_risk", "summarize_contract", "extract_key_clauses",
    "structured_analysis", "find_unclear_or_missing", "generate_legal_questions", "qa"
  }

  /** Every tool the planner's mode tags name is registered. */
  lemma PlannerToolsRegistered(mode: string)
    requires mode in Planner.AllowedIntents
    ensures Planner.ToolFor(mode) in Registry
  {
  }

  // ---------------------------------------------------------------- _run_qa

  /** `rb and not rb.startswith("NO_RULE_MATCH")`. */
  predicate RuleAnswerUsable(rb: Option<string>) {
    rb.Some? && rb.value != "" && !("NO_RULE_MATCH" <= rb.value)
  }

  /** `_run_qa(user_query, store, vector_store, k)`. */
  function RunQa(env: Env, k: Json): (answer: string)
    ensures var hits := env.search(env.userQuery, k);
      var rb := env.ruleAnswer(env.userQuery, hits);
      && (RuleAnswerUsable(rb) ==> answer == rb.value)
      && (!RuleAnswerUsable(rb) ==> answer == env.llmAnswer(env.userQuery, hits))
  {
    var hits := env.search(env.userQuery, k);
    var rb := env.ruleAnswer(env.userQuery, hits);
    if RuleAnswerUsable(rb) then rb.value else env.llmAnswer(env.userQuery, hits)
  }

  /** The answer never carries the no-match sentinel unless the LLM wrote it. */
  lemma RunQaSentinelFromLlm(env: Env, k: Json)
    requires "NO_RULE_MATCH" <= RunQa(env, k)
    ensures RunQa(env, k) == env.llmAnswer(env.userQuery, env.search(env.userQuery, k))
  {
  }

  // ---------------------------------------------------------------- one step

  /** The result key each registered tool writes in step mode. */
  function ResultKey(tool: string): (key: string)
    requires tool in Registry
    ensures key in ResultKeys
  {
    match tool
    case "qa" => "qa"
    case "build_full_report" => "full_report"
    case "analyze_full_contract_risk" => "risk_report"
    case "summarize_contract" => "summary"
    case "extract_key_clauses" => "key_clauses"
    case "structured_analysis" => "structured_analysis"
    case "find_unclear_or_missing" => "unclear_or_missing"
    case "generate_legal_questions" => "lawyer_questions"
  }

  const ResultKeys: set<string> := {
    "qa", "full_report", "risk_report", "summary", "key_clauses", "structured_analysis",
    "unclear_or_missing", "lawyer_questions"
  }

  /** `f"step_{i}_error"`. */
  function ErrorKey(i: nat): string {
    "step_" + NatToString(i) + "_error"
  }

  /** Error keys never collide with result keys, nor with each other. */
  lemma ErrorKeyDistinct(i: nat, j: nat)
    ensures ErrorKey(i) !in ResultKeys
    ensures i != j ==> ErrorKey(i) != ErrorKey(j)
  {
    var e := ErrorKey(i);
    assert e[2] == 'e';
    assert forall x :: x in ResultKeys ==> |x| <= 2 || x[2] != 'e';
    if i != j && ErrorKey(i) == ErrorKey(j) {
      var a, b := NatToString(i), NatToString(j);
      var n := |ErrorKey(i)|;
      assert |a| == |b|;
      assert ErrorKey(i)[5..5 + |a|] == a;
      assert ErrorKey(j)[5..5 + |b|] == b;
      NatToStringInjective(i, j);
    }
  }

  /** `(step or {})`: a falsy step reads as `{}`, and `.get` on a truthy non-dict raises. */
  function StepFields(step: Json): Result<seq<(string, Json)>, string> {
    if !PyTruthy(step) then Ok([])
    else if step.Obj? then Ok(step.fields)
    else Err("AttributeError")
  }

  /** `(step or {}).get("tool")`. */
  function ToolOf(fields: seq<(string, Json)>): Json {
    Lookup(fields, "tool").GetOr(Null)
  }

  /** `(step or {}).get("args") or {}`. */
  function ArgsOf(fields: seq<(string, Json)>): Json {
    var a := Lookup(fields, "args").GetOr(Null);
    if PyTruthy(a) then a else Obj([])
  }

  /** `args.get(key, default)` on a dict. */
  function ArgOr(args: Json, key: string, default: Json): (r: Json)
    requires args.Obj?
    ensures Lookup(args.fields, key).None? ==> r == default
  {
    Lookup(args.fields, key).GetOr(default)
  }

  /** Whether `tool in TOOL_REGISTRY` raises: a list or a dict is unhashable. */
  predicate Unhashable(tool: Json) {
    tool.Arr? || tool.Obj?
  }

  predicate IsRegistered(tool: Json) {
    tool.Str? && tool.s in Registry
  }

  /** The tools whose dispatch reads `args`. */
  const ArgTools: set<string> := {"summarize_contract", "extract_key_clauses", "structured_analysis", "generate_legal_questions"}

  /** The call a registered tool other than "qa" gets in step mode (lines 73-96). */
  function StepCall(tool: string, args: Json): (r: Result<Call, string>)
    requires tool in Registry && tool != "qa"
    ensures r.Ok? <==> tool !in ArgTools || args.Obj?
    ensures r.Ok? ==> r.value.tool == tool
  {
    if tool in ArgTools && !args.Obj? then Err("AttributeError")
    else
      match tool
      case "build_full_report" => Ok(Call(tool, [ContractStoreArg, VectorStoreArg], []))
      case "analyze_full_contract_risk" => Ok(Call(tool, [ContractStoreArg], []))
      case "summarize_contract" => Ok(Call(tool, [ContractStoreArg], [("max_clauses", ArgOr(args, "max_clauses", Num(40.0)))]))
      case "extract_key_clauses" =>
        Ok(Call(tool, [ContractStoreArg, VectorStoreArg], [("top_k", ArgOr(args, "top_k", Num(3.0)))]))
      case "structured_analysis" =>
        Ok(Call(tool, [ContractStoreArg, VectorStoreArg], [("k_per_section", ArgOr(args, "k_per_section", Num(5.0)))]))
      case "find_unclear_or_missing" => Ok(Call(tool, [ContractStoreArg], []))
      case "generate_legal_questions" => Ok(Call(tool, [VectorStoreArg, Value(ArgOr(args, "k", Num(4.0)))], []))
  }

  /** Whether running this step raises (lines 58-59, 61, 80-95). */
  predicate StepRaises(step: Json) {
    match StepFields(step)
    case Err(_) => true
    case Ok(fields) =>
      var tool := ToolOf(fields);
      Unhashable(tool) || (IsRegistered(tool) && tool.s in ArgTools && !ArgsOf(fields).Obj?)
  }

  /** The key a step that does not raise writes. */
  function StepKey(step: Json, i: nat): (key: string)
    requires !StepRaises(step)
  {
    var tool := ToolOf(StepFields(step).value);
    if IsRegistered(tool) then ResultKey(tool.s) else ErrorKey(i)
  }

  /** One pass of the loop body of `execute` for step `i`. */
  function RunStep(env: Env, k: Json, results: seq<(string, Json)>, i: nat, step: Json): (r: Result<seq<(string, Json)>, string>)
    ensures r.Ok? <==> !StepRaises(step)
  {
    match StepFields(step)
    case Err(e) => Err(e)
    case Ok(fields) =>
      var tool := ToolOf(fields);
      if Unhashable(tool) then Err("TypeError")
      else if !IsRegistered(tool) then Ok(Put(results, ErrorKey(i), Str("Unknown tool: " + PyStr(tool, env.num, env.repr))))
      else if tool.s == "qa" then Ok(Put(results, "qa", Str(RunQa(env, k))))
      else
        match StepCall(tool.s, ArgsOf(fields))
        case Err(e) => Err(e)
        case Ok(c) => Ok(Put(results, ResultKey(tool.s), env.run(c)))
  }

  /** A step that does not raise writes its own key and leaves every other key as it was. */
  lemma RunStepWrites(env: Env, k: Json, results: seq<(string, Json)>, i: nat, step: Json)
    requires !StepRaises(step)
    ensures var r := RunStep(env, k, results, i, step).value;
      && Lookup(r, StepKey(step, i)).Some?
      && forall key :: key != StepKey(step, i) ==> Lookup(r, key) == Lookup(results, key)
  {
  }

  /** A step that does not raise writes one key with `d[key] = value`, so the dict still binds each key once. */
  lemma RunStepDistinct(env: Env, k: Json, results: seq<(string, Json)>, i: nat, step: Json)
    requires DistinctKeys(results) && RunStep(env, k, results, i, step).Ok?
    ensures DistinctKeys(RunStep(env, k, results, i, step).value)
  {
    var fields := StepFields(step).value;
    var tool := ToolOf(fields);
    if !IsRegistered(tool) {
      PutDistinct(results, ErrorKey(i), Str("Unknown tool: " + PyStr(tool, env.num, env.repr)));
    } else if tool.s == "qa" {
      PutDistinct(results, "qa", Str(RunQa(env, k)));
    } else {
      PutDistinct(results, ResultKey(tool.s), env.run(StepCall(tool.s, ArgsOf(fields)).value));
    }
  }

  // ---------------------------------------------------------------- all steps

  /** The `results` dict after the loop over `steps`, or the exception a step raised. */
  function RunSteps(env: Env, k: Json, steps: seq<Json>): Result<seq<(string, Json)>, string> {
    if steps == [] then Ok([])
    else
      var before := RunSteps(env, k, steps[..|steps| - 1]);
      if before.Err? then before else RunStep(env, k, before.value, |steps| - 1, steps[|steps| - 1])
  }

  lemma RunStepsSnoc(env: Env, k: Json, steps: seq<Json>, step: Json)
    ensures RunSteps(env, k, steps + [step]) ==
      if RunSteps(env, k, steps).Err? then RunSteps(env, k, steps)
      else RunStep(env, k, RunSteps(env, k, steps).value, |steps|, step)
  {
    assert (steps + [step])[..|steps|] == steps;
  }

  /**
   * An unknown tool does not stop the loop: the steps run to the end unless
   * one of them raises.
   */
  lemma {:induction false} RunStepsOk(env: Env, k: Json, steps: seq<Json>)
    ensures RunSteps(env, k, steps).Ok? <==> forall i :: 0 <= i < |steps| ==> StepRuns(steps[i])
  {
    if steps != [] {
      var init, last := steps[..|steps| - 1], steps[|steps| - 1];
      RunStepsOkLast(env, k, steps);
      RunStepsOk(env, k, init);
      AllSnoc(steps, init, StepRuns);
    }
  }

  predicate StepRuns(step: Json) { !StepRaises(step) }

  /** A property holds of every element exactly when it holds of all but the last and of the last. */
  lemma AllSnoc(s: seq<Json>, init: seq<Json>, p: Json -> bool)
    requires s != [] && init == s[..|s| - 1]
    ensures (forall i :: 0 <= i < |s| ==> p(s[i])) <==> (forall i :: 0 <= i < |init| ==> p(init[i])) && p(s[|s| - 1])
  {
    assert forall i :: 0 <= i < |init| ==> init[i] == s[i];
  }

  lemma RunStepsOkLast(env: Env, k: Json, steps: seq<Json>)
    requires steps != []
    ensures RunSteps(env, k, steps).Ok? <==> RunSteps(env, k, steps[..|steps| - 1]).Ok? && !StepRaises(steps[|steps| - 1])
  {
  }

  /** The dict never binds a key twice, and every step adds at most one entry. */
  lemma {:induction false} RunStepsShape(env: Env, k: Json, steps: seq<Json>)
    requires RunSteps(env, k, steps).Ok?
    ensures DistinctKeys(RunSteps(env, k, steps).value)
    ensures steps != [] ==> RunSteps(env, k, steps).value != []
  {
    if steps != [] {
      var init := steps[..|steps| - 1];
      RunStepsShape(env, k, init);
      var results := RunSteps(env, k, init).value;
      var r := RunSteps(env, k, steps).value;
      var key := StepKey(steps[|steps| - 1], |steps| - 1);
      RunStepDistinct(env, k, results, |steps| - 1, steps[|steps| - 1]);
      RunStepWrites(env, k, results, |steps| - 1, steps[|steps| - 1]);
    }
  }

  /** A step with an unknown tool leaves its own error entry, and no later step removes or rewrites it. */
  lemma {:induction false} UnknownToolRecorded(env: Env, k: Json, steps: seq<Json>, i: nat)
    requires i < |steps| && RunSteps(env, k, steps).Ok?
    requires StepFields(steps[i]).Ok? && !IsRegistered(ToolOf(StepFields(steps[i]).value))
    ensures var tool := ToolOf(StepFields(steps[i]).value);
      Lookup(RunSteps(env, k, steps).value, ErrorKey(i)) == Some(Str("Unknown tool: " + PyStr(tool, env.num, env.repr)))
  {
    var init := steps[..|steps| - 1];
    var last := steps[|steps| - 1];
    assert RunSteps(env, k, init).Ok?;
    if i < |steps| - 1 {
      assert init[i] == steps[i];
      UnknownToolRecorded(env, k, init, i);
      var key := StepKey(last, |steps| - 1);
      ErrorKeyDistinct(i, |steps| - 1);
      assert key != ErrorKey(i);
      RunStepWrites(env, k, RunSteps(env, k, init).value, |steps| - 1, last);
    }
  }

  /** A later step writing the same result key overwrites the earlier value: the last step's value is the one kept. */
  lemma LastStepWins(env: Env, k: Json, steps: seq<Json>, step: Json, tool: string)
    requires RunSteps(env, k, steps + [step]).Ok?
    requires step == Planner.Step(tool) && tool in Registry
    ensures Lookup(RunSteps(env, k, steps + [step]).value, ResultKey(tool)) == Some(StepValue(env, k, tool))
  {
    RunStepsSnoc(env, k, steps, step);
    DefaultStepFields(tool);
  }

  /** What a planner step `{"tool": tool, "args": {}}` yields: the tool's value with its default arguments. */
  function StepValue(env: Env, k: Json, tool: string): Json
    requires tool in Registry
  {
    if tool == "qa" then Str(RunQa(env, k)) else env.run(StepCall(tool, Obj([])).value)
  }

  lemma DefaultStepFields(tool: string)
    ensures StepFields(Planner.Step(tool)) == Ok([("tool", Str(tool)), ("args", Obj([]))])
    ensures ToolOf(StepFields(Planner.Step(tool)).value) == Str(tool)
    ensures ArgsOf(StepFields(Planner.Step(tool)).value) == Obj([])
  {
    var f := [("tool", Str(tool)), ("args", Obj([]))];
    LookupFirst(f, 0);
    LookupFirst(f, 1);
  }

  // ---------------------------------------------------------------- execute

  /** `plan_obj or {}`, and `.get` on a truthy non-dict raises. */
  function PlanFields(planObj: Json): Result<seq<(string, Json)>, string> {
    if !PyTruthy(planObj) then Ok([])
    else if planObj.Obj? then Ok(planObj.fields)
    else Err("AttributeError")
  }

  /** `if len(results) == 1: return next(iter(results.values()))`. */
  function Unwrapped(results: seq<(string, Json)>): Json {
    if |results| == 1 then results[0].1 else Obj(results)
  }

  /** Intent mode (lines 105-129): each known intent calls its tool with the callee's own defaults; anything else is QA. */
  function IntentResult(env: Env, k: Json, intent: Json): (r: Json)
    ensures !intent.Str? || intent.s !in Planner.AllowedIntents || intent.s == "qa" ==> r == Str(RunQa(env, k))
  {
    if intent == Str("full_report") then env.run(Call("build_full_report", [ContractStoreArg, VectorStoreArg], []))
    else if intent == Str("risk_only") then env.run(Call("analyze_full_contract_risk", [ContractStoreArg], []))
    else if intent == Str("summary_only") then env.run(Call("summarize_contract", [ContractStoreArg], []))
    else if intent == Str("key_clauses_only") then env.run(Call("extract_key_clauses", [ContractStoreArg, VectorStoreArg], []))
    else if intent == Str("structured_only") then env.run(Call("structured_analysis", [ContractStoreArg, VectorStoreArg], []))
    else if intent == Str("unclear_only") then env.run(Call("find_unclear_or_missing", [ContractStoreArg], []))
    else if intent == Str("lawyer_questions_only") then
      env.run(Call("generate_legal_questions", [ContractStoreArg, VectorStoreArg], [("k", Num(4.0))]))
    else Str(RunQa(env, k))
  }

  /** What `execute(plan_obj, user_query, store, vector_store)` returns, or the exception it raises. */
  function Executed(planObj: Json, env: Env): Result<Json, string> {
    match PlanFields(planObj)
    case Err(e) => Err(e)
    case Ok(fields) =>
      var k := Lookup(fields, "k").GetOr(Num(5.0));
      var steps := Lookup(fields, "steps");
      if Planner.IsNonEmptyArray(steps) then
        match RunSteps(env, k, steps.value.items)
        case Err(e) => Err(e)
        case Ok(results) => Ok(Unwrapped(results))
      else Ok(IntentResult(env, k, Lookup(fields, "intent").GetOr(Str("qa"))))
  }

  /** `execute`: the step loop fills `results` one step at a time. */
  method Execute(planObj: Json, env: Env) returns (r: Result<Json, string>)
    ensures r == Executed(planObj, env)
  {
    var fields: seq<(string, Json)>;
    if !PyTruthy(planObj) {
      fields := [];
    } else if planObj.Obj? {
      fields := planObj.fields;
    } else {
      return Err("AttributeError");
    }
    var k := Lookup(fields, "k").GetOr(Num(5.0));
    var steps := Lookup(fields, "steps");
    if steps.Some? && steps.value.Arr? && steps.value.items != [] {
      var items := steps.value.items;
      var results: seq<(string, Json)> := [];
      var i := 0;
      while i < |items|
        invariant 0 <= i <= |items|
        invariant RunSteps(env, k, items[..i]) == Ok(results)
      {
        assert items[..i + 1] == items[..i] + [items[i]];
        RunStepsSnoc(env, k, items[..i], items[i]);
        var next := RunStep(env, k, results, i, items[i]);
        if next.Err? {
          ErrorPersists(env, k, items, i + 1);
          return Err(next.error);
        }
        results := next.value;
        i := i + 1;
      }
      assert items[..|items|] == items;
      if |results| == 1 {
        return Ok(results[0].1);
      }
      return Ok(Obj(results));
    }
    r := Ok(IntentResult(env, k, Lookup(fields, "intent").GetOr(Str("qa"))));
  }

  /** Once a step raises, the whole loop raises the same exception. */
  lemma {:induction false} ErrorPersists(env: Env, k: Json, steps: seq<Json>, n: nat)
    requires n <= |steps| && RunSteps(env, k, steps[..n]).Err?
    ensures RunSteps(env, k, steps) == RunSteps(env, k, steps[..n])
    decreases |steps| - n
  {
    if n < |steps| {
      assert steps[..n + 1][..n] == steps[..n];
      ErrorPersists(env, k, steps, n + 1);
    } else {
      assert steps[..n] == steps;
    }
  }

  // ---------------------------------------------------------------- properties

  /** A `None` plan runs QA with `k` 5. */
  lemma NoPlanRunsQa(env: Env)
    ensures Executed(Null, env) == Ok(Str(RunQa(env, Num(5.0))))
  {
  }

  /** Step mode runs exactly when "steps" is a non-empty list; otherwise the intent decides, QA by default. */
  lemma StepModeIff(fields: seq<(string, Json)>, env: Env)
    ensures !Planner.IsNonEmptyArray(Lookup(fields, "steps")) ==>
      Executed(Obj(fields), env) == Ok(IntentResult(env, Lookup(fields, "k").GetOr(Num(5.0)), Lookup(fields, "intent").GetOr(Str("qa"))))
    ensures Planner.IsNonEmptyArray(Lookup(fields, "steps")) ==>
      var run := RunSteps(env, Lookup(fields, "k").GetOr(Num(5.0)), Lookup(fields, "steps").value.items);
      Executed(Obj(fields), env) == (if run.Err? then Err(run.error) else Ok(Unwrapped(run.value)))
  {
  }

  /**
   * A plan the planner builds from a mode tag runs its one step and returns
   * that tool's value unwrapped.
   */
  lemma ModePlanExecutes(mode: string, notes: string, env: Env)
    requires mode in Planner.AllowedIntents
    ensures Executed(Planner.FixedPlan(mode, Planner.ToolFor(mode), notes), env) == Ok(StepValue(env, Num(5.0), Planner.ToolFor(mode)))
  {
    var tool := Planner.ToolFor(mode);
    var plan := Planner.FixedPlan(mode, tool, notes);
    var f := plan.fields;
    LookupFirst(f, 1);
    assert f[0].0 != f[2].0 && f[1].0 != f[2].0;
    LookupFirst(f, 2);
    DefaultStepFields(tool);
    var step := Planner.Step(tool);
    RunStepsSnoc(env, Num(5.0), [], step);
    assert [] + [step] == [step];
    var results := RunSteps(env, Num(5.0), [step]).value;
    assert results == Put([], ResultKey(tool), StepValue(env, Num(5.0), tool));
  }
}
