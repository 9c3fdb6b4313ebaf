/**
 * agents/planner.py: turns a user query into a plan, a JSON object with the
 * keys "intent", "k", "steps" and "notes".
 *
 * A `__MODE__:<mode>` tag sent by the frontend wins; then three keyword
 * overrides; otherwise the plan comes from the language model and is
 * normalised. The model call, the stripping of Markdown fences from its reply
 * and `safe_json_load` are one parameter, `askPlanner`, that maps the user
 * prompt to the parsed reply, `None` when parsing raised.
 */
module Planner {
  import opened Wrappers
  import opened Strs
  import opened Json

  /** `ALLOWED_INTENTS`. */
  const AllowedIntents: set<string> := {
    "qa", "summary_only", "key_clauses_only", "structured_only",
    "unclear_only", "lawyer_questions_only", "risk_only", "full_report"
  }

  // ---------------------------------------------------------------------
  // The mode tag: `^\s*__MODE__\s*:\s*([a-z_]+)\s*\n?(.*)$` with IGNORECASE
  // and DOTALL, on the stripped input.

  /** `[a-z_]` under IGNORECASE. */
  predicate IsModeChar(c: char) { IsUpper(c) || IsLowerLetter(c) || c == '_' }

  /** `__MODE__` at position `i`, in any case. */
  predicate TagAt(s: string, i: int) {
    && 0 <= i && i + 8 <= |s|
    && s[i] == '_' && s[i + 1] == '_'
    && LowerChar(s[i + 2]) == 'm' && LowerChar(s[i + 3]) == 'o'
    && LowerChar(s[i + 4]) == 'd' && LowerChar(s[i + 5]) == 'e'
    && s[i + 6] == '_' && s[i + 7] == '_'
  }

  /** `[a-z_]*` from position `i`, as far as it goes. */
  function SkipModeChars(s: string, i: nat): (j: nat)
    requires i <= |s|
    ensures i <= j <= |s| && (j == |s| || !IsModeChar(s[j]))
    ensures forall k :: i <= k < j ==> IsModeChar(s[k])
    decreases |s| - i
  {
    if i < |s| && IsModeChar(s[i]) then SkipModeChars(s, i + 1) else i
  }

  /**
   * The two groups of the tag pattern, or `None` when it does not match.
   * Every quantifier of the pattern is greedy and `(.*)$` accepts any rest
   * under DOTALL, so no backtracking is needed: group 1 is the longest run of
   * mode characters and group 2 starts after the whitespace that follows it
   * (the optional `\n` finds nothing left to match).
   */
  function MatchModeTag(s: string): (r: Option<(string, string)>)
    ensures r.Some? ==> r.value.0 != [] && forall k :: 0 <= k < |r.value.0| ==> IsModeChar(r.value.0[k])
  {
    var a := SkipSpaces(s, 0);
    if !TagAt(s, a) then None
    else
      var b := SkipSpaces(s, a + 8);
      if b == |s| || s[b] != ':' then None
      else
        var c := SkipSpaces(s, b + 1);
        var d := SkipModeChars(s, c);
        if d == c then None
        else Some((s[c..d], s[SkipSpaces(s, d)..]))
  }

  /**
   * `_extract_mode_tag(raw)`: the allowed, lower-cased mode and the stripped
   * rest, or `(None, raw)`. The `.strip()` of group 1 is left out: a run of
   * `[a-z_]` holds no whitespace.
   */
  function ExtractModeTag(raw: string): (r: (Option<string>, string))
    ensures r.0.Some? ==> r.0.value in AllowedIntents
    ensures r.0.None? ==> r.1 == raw
    ensures raw == [] ==> r.0.None?
  {
    if raw == [] then (None, raw)
    else
      match MatchModeTag(Trim(raw))
      case None => (None, raw)
      case Some((group1, group2)) =>
        var mode := Lower(group1);
        var rest := Trim(group2);
        if mode in AllowedIntents then (Some(mode), rest) else (None, raw)
  }

  lemma SkipModeCharsIs(s: string, i: nat, j: nat)
    requires i <= j <= |s| && (j == |s| || !IsModeChar(s[j]))
    requires forall k :: i <= k < j ==> IsModeChar(s[k])
    ensures SkipModeChars(s, i) == j
  {
  }

  /** The pattern, in terms of the positions where its parts end. */
  lemma MatchAt(s: string, b: nat, c: nat, d: nat)
    requires 8 <= b < c <= d <= |s| && TagAt(s, 0)
    requires AllSpace(s[8..b]) && s[b] == ':' && AllSpace(s[b + 1..c])
    requires c < d && forall k :: 0 <= k < d - c ==> IsModeChar(s[c..d][k])
    requires d == |s| || !IsModeChar(s[d])
    ensures MatchModeTag(s) == Some((s[c..d], s[SkipSpaces(s, d)..]))
  {
    assert forall k :: 8 <= k < b ==> s[k] == s[8..b][k - 8];
    assert forall k :: b + 1 <= k < c ==> s[k] == s[b + 1..c][k - b - 1];
    assert forall k :: c <= k < d ==> s[k] == s[c..d][k - c];
    SkipSpacesIs(s, 0, 0);
    SkipSpacesIs(s, 8, b);
    assert !IsSpace(s[c]) by { assert IsModeChar(s[c]); }
    SkipSpacesIs(s, b + 1, c);
    SkipModeCharsIs(s, c, d);
  }

  /** Where the parts of a tagged string sit. */
  lemma TaggedParts(tag: string, w2: string, w3: string, m: string, y: string)
    requires |tag| == 8
    ensures var s := tag + w2 + ":" + w3 + m + y;
      var b := 8 + |w2|;
      var c := b + 1 + |w3|;
      var d := c + |m|;
      && s[..8] == tag && s[8..b] == w2 && s[b] == ':' && s[b + 1..c] == w3 && s[c..d] == m && s[d..] == y
  {
    var s := tag + (w2 + ([':'] + (w3 + (m + y))));
    assert s == tag + w2 + ":" + w3 + m + y;
    var b := 8 + |w2|;
    var c := b + 1 + |w3|;
    var d := c + |m|;
    assert s[8..] == w2 + ([':'] + (w3 + (m + y)));
    assert s[b..] == [':'] + (w3 + (m + y));
    assert s[b + 1..] == w3 + (m + y);
    assert s[c..] == m + y;
  }

  /**
   * The pattern on a string that is already stripped on the left: the tag,
   * spaces, the colon, spaces, the mode, and then a rest `y` that does not
   * continue the mode.
   */
  lemma MatchTagged(tag: string, w2: string, w3: string, m: string, y: string)
    requires |tag| == 8 && TagAt(tag, 0) && AllSpace(w2) && AllSpace(w3)
    requires m != [] && forall k :: 0 <= k < |m| ==> IsModeChar(m[k])
    requires y == [] || !IsModeChar(y[0])
    ensures MatchModeTag(tag + w2 + ":" + w3 + m + y) == Some((m, TrimLeft(y)))
  {
    var s := tag + w2 + ":" + w3 + m + y;
    var b := 8 + |w2|;
    var c := b + 1 + |w3|;
    var d := c + |m|;
    TaggedParts(tag, w2, w3, m, y);
    assert forall k :: 0 <= k < 8 ==> s[k] == s[..8][k];
    MatchAt(s, b, c, d);
    SkipSpacesTrims(s, d);
  }

  /**
   * A recognised tag: `__MODE__` in any case after optional whitespace,
   * whitespace around the colon, a mode that is allowed once lower-cased,
   * then whitespace and a body (a body right after the mode must not
   * continue it). The mode comes back lower-cased and the rest is the
   * stripped body.
   */
  lemma ModeTagRecognised(raw: string, w1: string, tag: string, w2: string, w3: string, m: string, w4: string, body: string)
    requires raw == w1 + tag + w2 + ":" + w3 + m + w4 + body
    requires AllSpace(w1) && |tag| == 8 && TagAt(tag, 0) && AllSpace(w2) && AllSpace(w3) && AllSpace(w4)
    requires m != [] && (forall k :: 0 <= k < |m| ==> IsModeChar(m[k])) && Lower(m) in AllowedIntents
    requires w4 == [] ==> body == [] || !IsModeChar(body[0])
    ensures ExtractModeTag(raw) == (Some(Lower(m)), Trim(body))
  {
    var group2 := TaggedMatch(raw, w1, tag, w2, w3, m, w4, body);
    RestStripped(w4, body);
    ExtractOnMatch(raw, m, group2);
  }

  /** The pattern on a tagged input, before the mode is checked. */
  lemma TaggedMatch(raw: string, w1: string, tag: string, w2: string, w3: string, m: string, w4: string, body: string)
    returns (group2: string)
    requires raw == w1 + tag + w2 + ":" + w3 + m + w4 + body
    requires AllSpace(w1) && |tag| == 8 && TagAt(tag, 0) && AllSpace(w2) && AllSpace(w3) && AllSpace(w4)
    requires m != [] && (forall k :: 0 <= k < |m| ==> IsModeChar(m[k]))
    requires w4 == [] ==> body == [] || !IsModeChar(body[0])
    ensures raw != [] && group2 == TrimLeft(TrimRight(w4 + body)) && MatchModeTag(Trim(raw)) == Some((m, group2))
  {
    group2 := TrimLeft(TrimRight(w4 + body));
    var y := TrimRight(w4 + body);
    assert IsModeChar(m[|m| - 1]);
    TaggedTrim(raw, w1, tag, w2, w3, m, w4, body);
    RestDoesNotContinue(w4, body);
    MatchTagged(tag, w2, w3, m, y);
  }

  /** Stripping a tagged input keeps everything from the tag to the end of the body's last word. */
  lemma TaggedTrim(raw: string, w1: string, tag: string, w2: string, w3: string, m: string, w4: string, body: string)
    requires raw == w1 + tag + w2 + ":" + w3 + m + w4 + body
    requires AllSpace(w1) && |tag| == 8 && TagAt(tag, 0) && m != [] && IsModeChar(m[|m| - 1])
    ensures raw != [] && Trim(raw) == tag + w2 + ":" + w3 + m + TrimRight(w4 + body)
  {
    var p := tag + w2 + ":" + w3 + m;
    TaggedShape(raw, w1, tag, w2, w3, m, w4, body);
    TaggedEnds(p, tag, w2, w3, m);
    TrimTagged(w1, p, w4 + body);
  }

  lemma TaggedShape(raw: string, w1: string, tag: string, w2: string, w3: string, m: string, w4: string, body: string)
    requires raw == w1 + tag + w2 + ":" + w3 + m + w4 + body
    ensures raw == w1 + ((tag + w2 + ":" + w3 + m) + (w4 + body))
  {
  }

  lemma TaggedEnds(p: string, tag: string, w2: string, w3: string, m: string)
    requires p == tag + w2 + ":" + w3 + m && |tag| == 8 && TagAt(tag, 0) && m != []
    ensures p != [] && p[0] == '_' && p[|p| - 1] == m[|m| - 1]
  {
  }

  lemma ExtractOnMatch(raw: string, group1: string, group2: string)
    requires raw != [] && MatchModeTag(Trim(raw)) == Some((group1, group2))
    requires Lower(group1) in AllowedIntents
    ensures ExtractModeTag(raw) == (Some(Lower(group1)), Trim(group2))
  {
  }

  /** Stripping a tagged input removes the leading whitespace and the trailing whitespace of what follows the mode. */
  lemma TrimTagged(w1: string, p: string, z: string)
    requires AllSpace(w1) && p != [] && !IsSpace(p[0]) && !IsSpace(p[|p| - 1])
    ensures Trim(w1 + (p + z)) == p + TrimRight(z)
  {
    TrimLeftSpace(w1, p + z);
    assert (p + z)[0] == p[0];
    TrimLeftIs(p + z, 0);
    TrimRightAppend(p, z);
  }

  /** What follows the mode, once stripped on the right, does not extend the mode. */
  lemma RestDoesNotContinue(w4: string, body: string)
    requires AllSpace(w4)
    requires w4 == [] ==> body == [] || !IsModeChar(body[0])
    ensures var y := TrimRight(w4 + body); y == [] || !IsModeChar(y[0])
  {
    var z := w4 + body;
    var y := TrimRight(z);
    if y != [] {
      assert y[0] == z[0];
      if w4 != [] {
        assert z[0] == w4[0];
      } else {
        assert z == body;
      }
    }
  }

  /** The rest the tag leaves is the stripped body. */
  lemma RestStripped(w4: string, body: string)
    requires AllSpace(w4)
    ensures Trim(TrimLeft(TrimRight(w4 + body))) == Trim(body)
  {
    TrimOfTrimLeft(TrimRight(w4 + body));
    TrimOfTrimRight(w4 + body);
    TrimLeadingSpace(w4, body);
  }

  /** `Trim` cuts a slice out of its argument. */
  lemma TrimIsSlice(raw: string) returns (k: nat)
    ensures k + |Trim(raw)| <= |raw| && Trim(raw) == raw[k..k + |Trim(raw)|]
  {
    var l := TrimLeft(raw);
    k := |raw| - |l|;
    assert Trim(raw) == l[..|Trim(raw)|];
    assert l == raw[k..];
  }

  lemma TagAtShift(s: string, a: nat, t: string, b: nat)
    requires a + 8 <= |s| && b + 8 <= |t| && s[a..a + 8] == t[b..b + 8] && TagAt(s, a)
    ensures TagAt(t, b)
  {
    assert forall j :: a <= j < a + 8 ==> s[j] == s[a..a + 8][j - a] == t[b..b + 8][j - a];
  }

  /** Without `__MODE__`, in any case, somewhere in the input, the pattern does not match. */
  lemma NoTagNoMatch(raw: string)
    requires forall i :: !TagAt(raw, i)
    ensures MatchModeTag(Trim(raw)).None?
  {
    var s := Trim(raw);
    var a := SkipSpaces(s, 0);
    if TagAt(s, a) {
      var k := TrimIsSlice(raw);
      assert s[a..a + 8] == raw[k + a..k + a + 8];
      TagAtShift(s, a, raw, k + a);
      assert false;
    }
  }

  /** Without `__MODE__`, in any case, somewhere in the input, no mode is recognised. */
  lemma NoTagNoMode(raw: string)
    requires forall i :: !TagAt(raw, i)
    ensures ExtractModeTag(raw) == (None, raw)
  {
    NoTagNoMatch(raw);
  }

  // ---------------------------------------------------------------------
  // Plans.

  /** `{"tool": tool, "args": {}}`. */
  function Step(tool: string): Json {
    Obj([("tool", Str(tool)), ("args", Obj([]))])
  }

  /** A one-step plan with `k` 5. */
  function FixedPlan(intent: string, tool: string, notes: string): Json {
    Obj([("intent", Str(intent)), ("k", Num(5.0)), ("steps", Arr([Step(tool)])), ("notes", Str(notes))])
  }

  /** The tool each allowed intent runs when it arrives as a mode tag (`tool_map`). */
  function ToolFor(mode: string): (tool: string)
    requires mode in AllowedIntents
    ensures mode == "qa" <==> tool == "qa"
  {
    match mode
    case "full_report" => "build_full_report"
    case "risk_only" => "analyze_full_contract_risk"
    case "summary_only" => "summarize_contract"
    case "key_clauses_only" => "extract_key_clauses"
    case "structured_only" => "structured_analysis"
    case "unclear_only" => "find_unclear_or_missing"
    case "lawyer_questions_only" => "generate_legal_questions"
    case "qa" => "qa"
  }

  predicate IsNonEmptyArray(o: Option<Json>) {
    o.Some? && o.value.Arr? && o.value.items != []
  }

  /** What every plan carries: an object with "intent", "k" and "notes", and a non-empty "steps" list. */
  predicate WellFormedPlan(plan: Json) {
    && plan.Obj?
    && Lookup(plan.fields, "intent").Some?
    && Lookup(plan.fields, "k").Some?
    && Lookup(plan.fields, "notes").Some?
    && IsNonEmptyArray(Lookup(plan.fields, "steps"))
  }

  /** The keys normalisation may add. */
  const PlanKeys: set<string> := {"intent", "k", "steps", "notes"}

  /**
   * What normalisation promises about a reply that parsed to a dict: values
   * the model supplied are kept, whatever their type, and so are keys the
   * planner does not know; a missing "intent", "k" or "notes" gets its
   * default; a missing, non-list or empty "steps" becomes the single qa step.
   */
  ghost predicate NormalizedFrom(plan: Json, reply: seq<(string, Json)>) {
    && WellFormedPlan(plan)
    && (forall key :: key != "steps" && Lookup(reply, key).Some? ==> Lookup(plan.fields, key) == Lookup(reply, key))
    && (forall key :: key !in PlanKeys ==> Lookup(plan.fields, key) == Lookup(reply, key))
    && (Lookup(reply, "intent").None? ==> Lookup(plan.fields, "intent") == Some(Str("qa")))
    && (Lookup(reply, "k").None? ==> Lookup(plan.fields, "k") == Some(Num(5.0)))
    && (Lookup(reply, "notes").None? ==> Lookup(plan.fields, "notes") == Some(Str("")))
    && (IsNonEmptyArray(Lookup(reply, "steps")) ==> Lookup(plan.fields, "steps") == Lookup(reply, "steps"))
    && (!IsNonEmptyArray(Lookup(reply, "steps")) ==> Lookup(plan.fields, "steps") == Some(Arr([Step("qa")])))
  }

  /** The normalisation step: four `setdefault`s, then the "steps" repair. */
  method NormalizePlan(reply: seq<(string, Json)>) returns (plan: Json)
    ensures NormalizedFrom(plan, reply)
  {
    var obj := reply;
    obj := SetDefault(obj, "intent", Str("qa"));
    obj := SetDefault(obj, "k", Num(5.0));
    obj := SetDefault(obj, "steps", Arr([Step("qa")]));
    obj := SetDefault(obj, "notes", Str(""));
    ghost var four := obj;
    DefaultsApplied(reply);
    if !IsNonEmptyArray(Lookup(obj, "steps")) {
      obj := Put(obj, "steps", Arr([Step("qa")]));
    }
    plan := Obj(obj);
    StepsRepaired(reply, four);
  }

  /** What the four `setdefault`s leave behind. */
  lemma DefaultsApplied(reply: seq<(string, Json)>)
    ensures var two := SetDefault(SetDefault(reply, "intent", Str("qa")), "k", Num(5.0));
      var four := SetDefault(SetDefault(two, "steps", Arr([Step("qa")])), "notes", Str(""));
      && (forall key :: key !in PlanKeys ==> Lookup(four, key) == Lookup(reply, key))
      && (forall key :: Lookup(reply, key).Some? ==> Lookup(four, key) == Lookup(reply, key))
      && (Lookup(reply, "intent").None? ==> Lookup(four, "intent") == Some(Str("qa")))
      && (Lookup(reply, "k").None? ==> Lookup(four, "k") == Some(Num(5.0)))
      && (Lookup(reply, "notes").None? ==> Lookup(four, "notes") == Some(Str("")))
      && (Lookup(reply, "steps").None? ==> Lookup(four, "steps") == Some(Arr([Step("qa")])))
  {
    assert "intent" != "k" && "intent" != "steps" && "intent" != "notes";
    assert "k" != "steps" && "k" != "notes";
    assert "steps"[0] != "notes"[0];
    FourDefaults(reply, "intent", Str("qa"), "k", Num(5.0), "steps", Arr([Step("qa")]), "notes", Str(""));
  }

  /** Four `setdefault`s on distinct keys: other keys untouched, present values kept, missing keys defaulted. */
  lemma FourDefaults(s0: seq<(string, Json)>, k1: string, v1: Json, k2: string, v2: Json, k3: string, v3: Json, k4: string, v4: Json)
    requires k1 != k2 && k1 != k3 && k1 != k4 && k2 != k3 && k2 != k4 && k3 != k4
    ensures var s4 := SetDefault(SetDefault(SetDefault(SetDefault(s0, k1, v1), k2, v2), k3, v3), k4, v4);
      && (forall key :: key != k1 && key != k2 && key != k3 && key != k4 ==> Lookup(s4, key) == Lookup(s0, key))
      && (forall key :: Lookup(s0, key).Some? ==> Lookup(s4, key) == Lookup(s0, key))
      && (Lookup(s0, k1).None? ==> Lookup(s4, k1) == Some(v1))
      && (Lookup(s0, k2).None? ==> Lookup(s4, k2) == Some(v2))
      && (Lookup(s0, k3).None? ==> Lookup(s4, k3) == Some(v3))
      && (Lookup(s0, k4).None? ==> Lookup(s4, k4) == Some(v4))
  {
    var s2 := SetDefault(SetDefault(s0, k1, v1), k2, v2);
    SetDefaultKeeps(s0, k1, v1, k2, v2);
    SetDefaultKeeps(s2, k3, v3, k4, v4);
  }

  /** The "steps" repair applied to a reply after the four `setdefault`s. */
  lemma StepsRepaired(reply: seq<(string, Json)>, four: seq<(string, Json)>)
    requires forall key :: key !in PlanKeys ==> Lookup(four, key) == Lookup(reply, key)
    requires forall key :: Lookup(reply, key).Some? ==> Lookup(four, key) == Lookup(reply, key)
    requires Lookup(reply, "intent").None? ==> Lookup(four, "intent") == Some(Str("qa"))
    requires Lookup(reply, "k").None? ==> Lookup(four, "k") == Some(Num(5.0))
    requires Lookup(reply, "notes").None? ==> Lookup(four, "notes") == Some(Str(""))
    requires Lookup(reply, "steps").None? ==> Lookup(four, "steps") == Some(Arr([Step("qa")]))
    ensures NormalizedFrom(Obj(if IsNonEmptyArray(Lookup(four, "steps")) then four else Put(four, "steps", Arr([Step("qa")]))), reply)
  {
    var fields := if IsNonEmptyArray(Lookup(four, "steps")) then four else Put(four, "steps", Arr([Step("qa")]));
    RepairKeepsOthers(four, fields);
    assert Lookup(fields, "intent").Some? && Lookup(fields, "k").Some? && Lookup(fields, "notes").Some?;
    assert IsNonEmptyArray(Lookup(reply, "steps")) ==> Lookup(fields, "steps") == Lookup(reply, "steps");
    assert !IsNonEmptyArray(Lookup(reply, "steps")) ==> Lookup(fields, "steps") == Some(Arr([Step("qa")]));
  }

  /** The repair touches "steps" only. */
  lemma RepairKeepsOthers(four: seq<(string, Json)>, fields: seq<(string, Json)>)
    requires fields == if IsNonEmptyArray(Lookup(four, "steps")) then four else Put(four, "steps", Arr([Step("qa")]))
    ensures IsNonEmptyArray(Lookup(fields, "steps"))
    ensures forall key :: key != "steps" ==> Lookup(fields, key) == Lookup(four, key)
  {
  }

  /** Two `setdefault`s on distinct keys leave every other key alone and keep values already there. */
  lemma SetDefaultKeeps(before: seq<(string, Json)>, k1: string, v1: Json, k2: string, v2: Json)
    requires k1 != k2
    ensures var after := SetDefault(SetDefault(before, k1, v1), k2, v2);
      forall key :: key != k1 && key != k2 ==> Lookup(after, key) == Lookup(before, key)
    ensures var after := SetDefault(SetDefault(before, k1, v1), k2, v2);
      forall key :: Lookup(before, key).Some? ==> Lookup(after, key) == Lookup(before, key)
    ensures var after := SetDefault(SetDefault(before, k1, v1), k2, v2);
      && (Lookup(before, k1).None? ==> Lookup(after, k1) == Some(v1))
      && (Lookup(before, k2).None? ==> Lookup(after, k2) == Some(v2))
  {
  }

  /** Every fixed plan is well formed. */
  lemma FixedPlanWellFormed(intent: string, tool: string, notes: string)
    ensures WellFormedPlan(FixedPlan(intent, tool, notes))
  {
    var f := FixedPlan(intent, tool, notes).fields;
    LookupFirst(f, 0);
    LookupFirst(f, 1);
    assert f[0].0 != f[2].0 && f[1].0 != f[2].0;
    LookupFirst(f, 2);
    assert f[3].0 == "notes" && f[0].0 != f[3].0 && f[1].0 != f[3].0 && f[2].0 != f[3].0 by {
      assert "steps"[0] != "notes"[0];
    }
    LookupFirst(f, 3);
  }

  /** The user prompt the model is given. */
  function PlannerPrompt(raw: string): string {
    "User query:\n" + raw + "\n\nReturn the plan JSON."
  }

  /** The query's text once no mode tag was recognised, as the keyword overrides see it. */
  function OverrideText(userQuery: Option<string>): string {
    Lower(Trim(ExtractModeTag(Trim(userQuery.GetOr(""))).1))
  }

  /** `plan(user_query)`. */
  method Plan(userQuery: Option<string>, askPlanner: string -> Option<Json>) returns (plan: Json)
    ensures WellFormedPlan(plan)
    ensures var mode := ExtractModeTag(Trim(userQuery.GetOr(""))).0;
      mode.Some? ==> plan == FixedPlan(mode.value, ToolFor(mode.value), "mode_tag_override")
    ensures var mode := ExtractModeTag(Trim(userQuery.GetOr(""))).0;
      var q := OverrideText(userQuery);
      mode.None? ==>
        && (q == "report" ==> plan == FixedPlan("full_report", "build_full_report", "deterministic_override"))
        && (q != "report" && Contains(q, "risk") ==>
              plan == FixedPlan("risk_only", "analyze_full_contract_risk", "deterministic_override"))
        && (q != "report" && !Contains(q, "risk") && Contains(q, "summary") && Contains(q, "only") ==>
              plan == FixedPlan("summary_only", "summarize_contract", "deterministic_override"))
    ensures var raw := Trim(userQuery.GetOr(""));
      var q := OverrideText(userQuery);
      var asked := ExtractModeTag(raw).0.None? && q != "report" && !Contains(q, "risk")
                   && !(Contains(q, "summary") && Contains(q, "only"));
      var reply := askPlanner(PlannerPrompt(raw));
      && (asked && reply.None? ==> plan == FixedPlan("qa", "qa", "planner_parse_error"))
      && (asked && reply.Some? && !reply.value.Obj? ==> plan == FixedPlan("qa", "qa", "planner_not_dict"))
      && (asked && reply.Some? && reply.value.Obj? ==> NormalizedFrom(plan, reply.value.fields))
  {
    var raw := Trim(userQuery.GetOr(""));
    var (mode, remaining) := ExtractModeTag(raw);
    if mode.Some? {
      FixedPlanWellFormed(mode.value, ToolFor(mode.value), "mode_tag_override");
      return FixedPlan(mode.value, ToolFor(mode.value), "mode_tag_override");
    }
    var q := Lower(Trim(remaining));
    if q == "report" {
      FixedPlanWellFormed("full_report", "build_full_report", "deterministic_override");
      return FixedPlan("full_report", "build_full_report", "deterministic_override");
    }
    if Contains(q, "risk") {
      FixedPlanWellFormed("risk_only", "analyze_full_contract_risk", "deterministic_override");
      return FixedPlan("risk_only", "analyze_full_contract_risk", "deterministic_override");
    }
    if Contains(q, "summary") && Contains(q, "only") {
      FixedPlanWellFormed("summary_only", "summarize_contract", "deterministic_override");
      return FixedPlan("summary_only", "summarize_contract", "deterministic_override");
    }
    var reply := askPlanner(PlannerPrompt(raw));
    if reply.None? {
      FixedPlanWellFormed("qa", "qa", "planner_parse_error");
      return FixedPlan("qa", "qa", "planner_parse_error");
    }
    if !reply.value.Obj? {
      FixedPlanWellFormed("qa", "qa", "planner_not_dict");
      return FixedPlan("qa", "qa", "planner_not_dict");
    }
    plan := NormalizePlan(reply.value.fields);
  }
}
