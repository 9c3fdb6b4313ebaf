/**
 * How the web front end turns a chosen run mode and the user's text into the
 * query it sends (`__MODE__:<mode>` on the first line, then the request), and
 * how it strips that tag again to show a history entry.
 */
module AppContent {
  import opened Wrappers
  import opened Strs
  import Planner

  /** The eight run modes the workspace offers. */
  datatype RunMode =
    | Qa | SummaryOnly | KeyClausesOnly | RiskOnly | StructuredOnly
    | UnclearOnly | LawyerQuestionsOnly | FullReport

  /** The mode's wire name, as the back end's planner knows it. */
  function ModeName(m: RunMode): (name: string)
    ensures name in Planner.AllowedIntents
  {
    match m
    case Qa => "qa"
    case SummaryOnly => "summary_only"
    case KeyClausesOnly => "key_clauses_only"
    case RiskOnly => "risk_only"
    case StructuredOnly => "structured_only"
    case UnclearOnly => "unclear_only"
    case LawyerQuestionsOnly => "lawyer_questions_only"
    case FullReport => "full_report"
  }

  const QaDefault: string := "Answer my question using the contract."

  /** The fixed request of every mode other than QA (long literals are written in pieces). */
  function Instruction(m: RunMode): string
    requires m != Qa
  {
    match m
    case SummaryOnly => "Provide a concise contract summary."
    case KeyClausesOnly => "Extract the key clauses " + "(top items) with brief notes."
    case StructuredOnly => "Provide structured analysis " + "(obligations, termination, IP, " + "confidentiality, payments, etc)."
    case RiskOnly => "Analyze risks and red flags " + "in this contract."
    case UnclearOnly => "Find unclear, missing, " + "or ambiguous clauses / areas."
    case LawyerQuestionsOnly => "Generate questions I should " + "ask a lawyer before signing."
    case FullReport => "Generate the full report " + "(summary + key clauses + structured + " + "risks + unclear + lawyer questions)."
  }

  /** What follows the tag line: the trimmed question (or a default) for QA, else the instruction and any focus. */
  function PromptBody(m: RunMode, userText: string): string {
    var focus := Trim(userText);
    if m == Qa then (if focus != "" then focus else QaDefault)
    else Instruction(m) + (if focus != "" then "\nUser focus: " + focus else "")
  }

  /** `buildModePrompt`. */
  function BuildModePrompt(m: RunMode, userText: string): (p: string)
    ensures "__MODE__:" + ModeName(m) + "\n" <= p
  {
    "__MODE__:" + ModeName(m) + "\n" + PromptBody(m, userText)
  }

  /** A character of the regex class `[:\w-]`. */
  predicate IsLabelChar(c: char) { c == ':' || IsWordChar(c) || c == '-' }

  /** `[:\w-]*` from position `i`, as far as it goes. */
  function SkipLabelChars(s: string, i: nat): (j: nat)
    requires i <= |s|
    ensures i <= j <= |s| && (j == |s| || !IsLabelChar(s[j]))
    ensures forall k :: i <= k < j ==> IsLabelChar(s[k])
    decreases |s| - i
  {
    if i < |s| && IsLabelChar(s[i]) then SkipLabelChars(s, i + 1) else i
  }

  /**
   * `cleanQueryLabel`: "" for a missing or empty query; otherwise a leading
   * `__MODE__` (any case), the run of `[:\w-]` after it (at least one) and
   * the whitespace after that are removed. The greedy run stops at the first
   * character outside the class, so the match needs no backtracking.
   */
  function CleanQueryLabel(q: Option<string>): (shown: string)
    ensures q.None? || q == Some("") ==> shown == ""
    ensures q.Some? ==> |shown| <= |q.value| && shown == q.value[|q.value| - |shown|..]
  {
    if q.None? || q.value == "" then ""
    else
      var s := q.value;
      if Planner.TagAt(s, 0) && 8 < |s| && IsLabelChar(s[8]) then s[SkipSpaces(s, SkipLabelChars(s, 8))..]
      else s
  }

  // ---------------------------------------------------------------- round trips

  predicate IsModeCharLower(c: char) { IsLowerLetter(c) || c == '_' }

  lemma ModeNameChars(m: RunMode)
    ensures ModeName(m) != []
    ensures forall k :: 0 <= k < |ModeName(m)| ==> IsModeCharLower(ModeName(m)[k])
  {
    match m
    case Qa =>
    case SummaryOnly =>
    case KeyClausesOnly =>
    case RiskOnly =>
    case StructuredOnly =>
    case UnclearOnly =>
    case LawyerQuestionsOnly =>
    case FullReport =>
  }

  lemma InstructionSolid(m: RunMode)
    requires m != Qa
    ensures Instruction(m) != [] && IsUpper(Instruction(m)[0])
  {
    match m
    case SummaryOnly => assert Instruction(m)[0] == 'P';
    case KeyClausesOnly => assert Instruction(m)[0] == 'E';
    case RiskOnly => assert Instruction(m)[0] == 'A';
    case StructuredOnly => assert Instruction(m)[0] == 'P';
    case UnclearOnly => assert Instruction(m)[0] == 'F';
    case LawyerQuestionsOnly => assert Instruction(m)[0] == 'G';
    case FullReport => assert Instruction(m)[0] == 'G';
  }

  lemma SolidPrefix(a: string, b: string)
    requires a != [] && IsUpper(a[0])
    ensures (a + b) != [] && !IsSpace((a + b)[0])
  {
    assert (a + b)[0] == a[0];
  }

  /** The body of every prompt starts with a character that is not whitespace. */
  lemma BodyStartsSolid(m: RunMode, userText: string)
    ensures PromptBody(m, userText) != [] && !IsSpace(PromptBody(m, userText)[0])
  {
    var focus := Trim(userText);
    if m == Qa {
      if focus == "" {
        assert PromptBody(m, userText) == QaDefault;
        assert QaDefault[0] == 'A';
      } else {
        assert PromptBody(m, userText) == focus;
      }
    } else {
      InstructionSolid(m);
      var extra := if focus != "" then "\nUser focus: " + focus else "";
      assert PromptBody(m, userText) == Instruction(m) + extra;
      SolidPrefix(Instruction(m), extra);
    }
  }

  /** The planner reads a tagged prompt's mode and, as the rest, its stripped body. */
  lemma TaggedPromptRead(name: string, body: string)
    requires name != [] && (forall k :: 0 <= k < |name| ==> IsModeCharLower(name[k]))
    requires name in Planner.AllowedIntents
    ensures Planner.ExtractModeTag("__MODE__:" + name + "\n" + body) == (Some(name), Trim(body))
  {
    var tag := "__MODE__";
    assert Planner.TagAt(tag, 0);
    assert forall k :: 0 <= k < |name| ==> Planner.IsModeChar(name[k]);
    LowerOfLower(name);
    var raw := "__MODE__:" + name + "\n" + body;
    assert raw == "" + tag + "" + ":" + "" + name + "\n" + body;
    Planner.ModeTagRecognised(raw, "", tag, "", "", name, "\n", body);
  }

  /** The planner reads back the mode of every prompt, and as the rest the stripped body. */
  lemma PlannerReadsMode(m: RunMode, userText: string)
    ensures Planner.ExtractModeTag(BuildModePrompt(m, userText)) == (Some(ModeName(m)), Trim(PromptBody(m, userText)))
  {
    ModeNameChars(m);
    TaggedPromptRead(ModeName(m), PromptBody(m, userText));
  }

  /** Stripping the tag from a tagged prompt whose body starts solid gives back exactly the body. */
  lemma CleanTagged(name: string, body: string)
    requires forall k :: 0 <= k < |name| ==> IsModeCharLower(name[k])
    requires body != [] && !IsSpace(body[0])
    ensures CleanQueryLabel(Some("__MODE__:" + name + "\n" + body)) == body
  {
    var p := "__MODE__:" + name + "\n" + body;
    var e := 9 + |name|;
    assert Planner.TagAt(p, 0);
    assert p[8] == ':';
    assert p[e] == '\n';
    assert forall k :: 8 <= k < e ==> IsLabelChar(p[k]) by {
      forall k | 8 <= k < e ensures IsLabelChar(p[k]) {
        if k > 8 {
          assert p[k] == name[k - 9];
        }
      }
    }
    SkipLabelsIs(p, 8, e);
    assert p[e + 1] == body[0];
    SkipSpacesIs(p, e, e + 1);
    assert p[e + 1..] == body;
  }

  /** Stripping the tag from any prompt gives back exactly its body. */
  lemma CleanLabelOfPrompt(m: RunMode, userText: string)
    ensures CleanQueryLabel(Some(BuildModePrompt(m, userText))) == PromptBody(m, userText)
  {
    ModeNameChars(m);
    BodyStartsSolid(m, userText);
    CleanTagged(ModeName(m), PromptBody(m, userText));
  }

  lemma SkipLabelsIs(s: string, i: nat, j: nat)
    requires i <= j <= |s| && (j == |s| || !IsLabelChar(s[j]))
    requires forall k :: i <= k < j ==> IsLabelChar(s[k])
    ensures SkipLabelChars(s, i) == j
    decreases j - i
  {
    if i < j {
      SkipLabelsIs(s, i + 1, j);
    }
  }

  /** For a question with text, the history label is the trimmed question. */
  lemma QaLabelIsQuestion(userText: string)
    requires Trim(userText) != ""
    ensures CleanQueryLabel(Some(BuildModePrompt(Qa, userText))) == Trim(userText)
  {
    CleanLabelOfPrompt(Qa, userText);
  }

  /** A focus line is added exactly when the trimmed text is non-empty, and QA falls back to its default request. */
  lemma FocusOnlyWithText(m: RunMode, userText: string)
    ensures m != Qa && Trim(userText) == "" ==> PromptBody(m, userText) == Instruction(m)
    ensures m != Qa && Trim(userText) != "" ==>
      Contains(PromptBody(m, userText), "\nUser focus: " + Trim(userText))
    ensures m == Qa && Trim(userText) == "" ==> PromptBody(m, userText) == QaDefault
  {
    if m != Qa && Trim(userText) != "" {
      ContainsInfix(Instruction(m), "\nUser focus: " + Trim(userText), "");
      assert Instruction(m) + ("\nUser focus: " + Trim(userText)) + "" == PromptBody(m, userText);
    }
  }
}
