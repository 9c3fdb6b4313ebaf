/**
 * The row builders behind the PDF export of the web front end: choosing the
 * report root, turning key clauses, structured analysis, unclear items and
 * lawyer questions into table rows, printing the score as a percentage, and
 * cutting long clause texts down to a snippet. The drawing itself is not
 * modelled.
 */
module ExportPdf {
  import opened Wrappers
  import opened Strs
  import opened Json
  import ES = ExecutiveSnapshot
  import RD = RiskDashboard

  const Dash: string := "\U{2014}"

  /** `safeText`: "" for null or undefined, a string as it is, anything else through `pretty` (`JSON.stringify(v, null, 2)`). */
  function SafeText(v: Option<Json>, pretty: Json -> string): (t: string)
    ensures Nullish(v) ==> t == ""
    ensures v.Some? && v.value.Str? ==> t == v.value.s
    ensures v.Some? && !v.value.Null? && !v.value.Str? ==> t == pretty(v.value)
  {
    if Nullish(v) then "" else if v.value.Str? then v.value.s else pretty(v.value)
  }

  // ---------------------------------------------------------------- the score

  /** The whole number `scoreToPct` prints: values up to 1.5 are read as fractions. */
  function ScorePercent(x: real): int {
    if x <= 1.5 then RD.Round(x * 100.0) else RD.Round(x)
  }

  /** `scoreToPct`: "—" unless the value is a number other than NaN; otherwise the rounded percentage and "%". */
  function ScoreToPct(x: Option<Json>, num: real -> string): (text: string)
    ensures text == Dash <==> !(x.Some? && x.value.Num?)
    ensures x.Some? && x.value.Num? ==> text == num(ScorePercent(x.value.n) as real) + "%"
  {
    if x.None? || !x.value.Num? then Dash
    else
      var t := num(ScorePercent(x.value.n) as real) + "%";
      assert t[|t| - 1] == '%' && Dash[|Dash| - 1] != '%';
      t
  }

  /**
   * The three views read the same score differently between 1 and 1.5: the
   * export scales 1.2 to 120, the dashboard prints it as 1, and the snapshot
   * clamps it to 1 (100 percent).
   */
  lemma PercentScalesDisagree()
    ensures ScorePercent(1.2) == 120
    ensures RD.Percent(1.2) == 1
    ensures ES.ScoreTo01(Some(Num(1.2))) == Some(1.0)
  {
    assert RD.Round(120.0) == 120;
    assert RD.Round(1.2) == 1;
  }

  /** Outside (1, 1.5] the export and the dashboard print the same percentage. */
  lemma PercentScalesAgreeElsewhere(x: real)
    requires x <= 1.0 || x > 1.5
    ensures ScorePercent(x) == RD.Percent(x)
  {
  }

  // ---------------------------------------------------------------- the report root

  /** `result.summary || result.key_clauses || result.structured_analysis || result.unclear_or_missing`. */
  predicate HasSections(result: Option<Json>) {
    JsTruthy(Chain(result, "summary")) || JsTruthy(Chain(result, "key_clauses"))
    || JsTruthy(Chain(result, "structured_analysis")) || JsTruthy(Chain(result, "unclear_or_missing"))
  }

  /**
   * `pickReportRoot`: `full_report`, then `result.full_report`, then the
   * result itself when it has report sections, then `risk_report`, then
   * `qa`, and finally the result itself or `{}` when it is nullish.
   */
  function PickReportRoot(result: Option<Json>): (root: Json)
    ensures IsObject(Chain(result, "full_report")) ==> root == Chain(result, "full_report").value
    ensures Nullish(result) ==> root == Obj([])
    ensures IsObject(result) ==> root.Obj?
    ensures Some(root) in [Chain(result, "full_report"), Chain(Chain(result, "result"), "full_report"),
                           result, Chain(result, "risk_report"), Chain(result, "qa")] || root == Obj([])
  {
    if IsObject(Chain(result, "full_report")) then Chain(result, "full_report").value
    else if IsObject(Chain(Chain(result, "result"), "full_report")) then Chain(Chain(result, "result"), "full_report").value
    else if IsObject(result) && HasSections(result) then result.value
    else if IsObject(Chain(result, "risk_report")) then Chain(result, "risk_report").value
    else if IsObject(Chain(result, "qa")) then Chain(result, "qa").value
    else Coalesce(result, Some(Obj([]))).value
  }

  /** A result with report sections and no `full_report` anywhere is its own root, ahead of its risk report. */
  lemma SectionsBeatRiskReport(result: Option<Json>)
    requires !IsObject(Chain(result, "full_report")) && !IsObject(Chain(Chain(result, "result"), "full_report"))
    requires IsObject(result) && HasSections(result)
    ensures PickReportRoot(result) == result.value
  {
  }

  /**
   * The whole preference order: each place is taken exactly when it holds an
   * object and no earlier place does; when none does, the result itself, or
   * `{}` for a nullish result.
   */
  lemma PickOrder(result: Option<Json>)
    ensures var full := Chain(result, "full_report");
      var nested := Chain(Chain(result, "result"), "full_report");
      var sections := IsObject(result) && HasSections(result);
      var risk := Chain(result, "risk_report");
      var qa := Chain(result, "qa");
      var root := PickReportRoot(result);
      && (IsObject(full) ==> root == full.value)
      && (!IsObject(full) && IsObject(nested) ==> root == nested.value)
      && (!IsObject(full) && !IsObject(nested) && sections ==> root == result.value)
      && (!IsObject(full) && !IsObject(nested) && !sections && IsObject(risk) ==> root == risk.value)
      && (!IsObject(full) && !IsObject(nested) && !sections && !IsObject(risk) && IsObject(qa) ==> root == qa.value)
      && (!IsObject(full) && !IsObject(nested) && !sections && !IsObject(risk) && !IsObject(qa) ==>
            root == if Nullish(result) then Obj([]) else result.value)
  {
  }

  /** A `full_report` nested under `result` wins over sections at the top level, and a risk report over a QA answer. */
  lemma NestedFullReportBeatsSections(result: Option<Json>)
    requires !IsObject(Chain(result, "full_report")) && IsObject(Chain(Chain(result, "result"), "full_report"))
    ensures PickReportRoot(result) == Chain(Chain(result, "result"), "full_report").value
  {
  }

  // ---------------------------------------------------------------- key clauses

  /** `x?.clause_id == null ? "—" : String(x.clause_id)`. */
  function ClauseLabel(x: Json, num: real -> string): (shown: string)
    ensures Nullish(Get(x, "clause_id")) ==> shown == Dash
  {
    if Nullish(Get(x, "clause_id")) then Dash else JsString(Get(x, "clause_id"), num)
  }

  /**
   * `String(x?.[key] ?? x?.text ?? x ?? "")`: the text the export reads from a
   * clause item (key "clause_text") or a lawyer question (key "question").
   */
  function TextOf(x: Json, key: string, num: real -> string): (t: string)
    ensures x.Str? ==> t == x.s
    ensures x.Null? ==> t == ""
    ensures x.Obj? && Get(x, key).Some? && Get(x, key).value.Str? ==> t == Get(x, key).value.s
    ensures x.Obj? && Nullish(Get(x, key)) && Get(x, "text").Some? && Get(x, "text").value.Str? ==>
      t == Get(x, "text").value.s
  {
    JsString(Coalesce(Coalesce(Coalesce(Get(x, key), Get(x, "text")), Some(x)), Some(Str(""))), num)
  }

  datatype KeyRow = KeyRow(section: string, clauseId: string, text: string)

  /** The rows of one section's items: one per item whose text is not empty, in item order. */
  function ItemRows(section: string, items: seq<Json>, num: real -> string): (rows: seq<KeyRow>)
    ensures |rows| <= |items|
    ensures forall k :: 0 <= k < |rows| ==> rows[k].section == section && rows[k].text != ""
  {
    if items == [] then []
    else
      var item := items[|items| - 1];
      var text := TextOf(item, "clause_text", num);
      ItemRows(section, items[..|items| - 1], num) + (if text == "" then [] else [KeyRow(section, ClauseLabel(item, num), text)])
  }

  /** The rows of all sections, section after section; a section that is not an array gives none. */
  /** One item gives one row holding its label and text, or none when its text is empty. */
  lemma ItemRowsSingle(section: string, x: Json, num: real -> string)
    ensures ItemRows(section, [x], num) ==
      if TextOf(x, "clause_text", num) != "" then [KeyRow(section, ClauseLabel(x, num), TextOf(x, "clause_text", num))] else []
  {
    assert [x][..0] == [];
  }

  /**
   * Items become rows one after another: with ItemRowsSingle this fixes the
   * rows of every list, in the order of its items.
   */
  lemma {:induction false} ItemRowsAppend(section: string, a: seq<Json>, b: seq<Json>, num: real -> string)
    ensures ItemRows(section, a + b, num) == ItemRows(section, a, num) + ItemRows(section, b, num)
  {
    if b == [] {
      assert a + b == a;
    } else {
      var init := b[..|b| - 1];
      var last := b[|b| - 1];
      var text := TextOf(last, "clause_text", num);
      var tail: seq<KeyRow> := if text == "" then [] else [KeyRow(section, ClauseLabel(last, num), text)];
      assert (a + b)[..|a + b| - 1] == a + init;
      assert (a + b)[|a + b| - 1] == last;
      assert ItemRows(section, a + b, num) == ItemRows(section, a + init, num) + tail;
      assert ItemRows(section, b, num) == ItemRows(section, init, num) + tail;
      ItemRowsAppend(section, a, init, num);
    }
  }

  function SectionRows(fields: seq<(string, Json)>, num: real -> string): seq<KeyRow> {
    if fields == [] then []
    else
      var last := fields[|fields| - 1];
      SectionRows(fields[..|fields| - 1], num) + (if last.1.Arr? then ItemRows(last.0, last.1.items, num) else [])
  }

  /** What `normalizeKeyClauses` returns: no rows unless it is given an object. */
  function KeyClauseRows(keyClauses: Option<Json>, num: real -> string): (rows: seq<KeyRow>)
    ensures !IsObject(keyClauses) ==> rows == []
  {
    if IsObject(keyClauses) then SectionRows(keyClauses.value.fields, num) else []
  }

  /** Pushes the rows of one section's items. */
  method PushItemRows(rows: seq<KeyRow>, section: string, items: seq<Json>, num: real -> string) returns (out: seq<KeyRow>)
    ensures out == rows + ItemRows(section, items, num)
  {
    out := rows;
    var j := 0;
    while j < |items|
      invariant 0 <= j <= |items|
      invariant out == rows + ItemRows(section, items[..j], num)
    {
      assert items[..j + 1][..j] == items[..j];
      var text := TextOf(items[j], "clause_text", num);
      if text != "" {
        out := out + [KeyRow(section, ClauseLabel(items[j], num), text)];
      }
      j := j + 1;
    }
    assert items[..|items|] == items;
  }

  /** `normalizeKeyClauses`: the nested loop over sections and their items. */
  method NormalizeKeyClauses(keyClauses: Option<Json>, num: real -> string) returns (rows: seq<KeyRow>)
    ensures rows == KeyClauseRows(keyClauses, num)
  {
    rows := [];
    if !IsObject(keyClauses) {
      return;
    }
    var fields := keyClauses.value.fields;
    var i := 0;
    while i < |fields|
      invariant 0 <= i <= |fields|
      invariant rows == SectionRows(fields[..i], num)
    {
      assert fields[..i + 1][..i] == fields[..i];
      if fields[i].1.Arr? {
        rows := PushItemRows(rows, fields[i].0, fields[i].1.items, num);
      }
      i := i + 1;
    }
    assert fields[..|fields|] == fields;
  }

  /** Rows come section by section: the rows of a longer section list extend those of its prefix. */
  lemma {:induction false} SectionRowsAppend(a: seq<(string, Json)>, b: seq<(string, Json)>, num: real -> string)
    ensures SectionRows(a + b, num) == SectionRows(a, num) + SectionRows(b, num)
  {
    if b == [] {
      assert a + b == a;
    } else {
      var init := b[..|b| - 1];
      var last := b[|b| - 1];
      var tail: seq<KeyRow> := if last.1.Arr? then ItemRows(last.0, last.1.items, num) else [];
      assert (a + b)[..|a + b| - 1] == a + init;
      assert (a + b)[|a + b| - 1] == last;
      assert SectionRows(a + b, num) == SectionRows(a + init, num) + tail;
      assert SectionRows(b, num) == SectionRows(init, num) + tail;
      SectionRowsAppend(a, init, num);
    }
  }

  /** One section gives the rows of its items when its value is an array, and none otherwise. */
  lemma SectionRowsSingle(key: string, v: Json, num: real -> string)
    ensures SectionRows([(key, v)], num) == if v.Arr? then ItemRows(key, v.items, num) else []
  {
    assert [(key, v)][..0] == [];
  }

  /** Every row has text and comes from a section whose value is an array. */
  lemma {:induction false} SectionRowsFromArrays(fields: seq<(string, Json)>, num: real -> string)
    ensures forall k :: 0 <= k < |SectionRows(fields, num)| ==>
      SectionRows(fields, num)[k].text != ""
      && exists i :: 0 <= i < |fields| && fields[i].0 == SectionRows(fields, num)[k].section && fields[i].1.Arr?
  {
    if fields != [] {
      var init := fields[..|fields| - 1];
      var last := fields[|fields| - 1];
      SectionRowsFromArrays(init, num);
      var front := SectionRows(init, num);
      var back: seq<KeyRow> := if last.1.Arr? then ItemRows(last.0, last.1.items, num) else [];
      assert SectionRows(fields, num) == front + back;
      forall k | 0 <= k < |front + back|
        ensures (front + back)[k].text != ""
          && exists i :: 0 <= i < |fields| && fields[i].0 == (front + back)[k].section && fields[i].1.Arr?
      {
        if k < |front| {
          var i :| 0 <= i < |init| && init[i].0 == front[k].section && init[i].1.Arr?;
          assert fields[i] == init[i];
        } else {
          assert fields[|fields| - 1] == last;
        }
      }
    }
  }

  // ---------------------------------------------------------------- structured analysis

  datatype TopicRow = TopicRow(topic: string, answer: string, cites: string)

  /** `• ${safeText(x?.issue ?? x)}`. */
  function Bullet(x: Json, pretty: Json -> string): (b: string)
    ensures b != [] && b[0] == '•'
  {
    "• " + SafeText(Coalesce(Get(x, "issue"), Some(x)), pretty)
  }

  /** String forms of array elements as `join` prints them: null elements become "". */
  function ElementTexts(items: seq<Json>, num: real -> string): (ts: seq<string>)
    ensures |ts| == |items|
  {
    seq(|items|, i requires 0 <= i < |items| => if items[i].Null? then "" else JsStringOf(items[i], num))
  }

  /** The answer of an array topic: the bullets of its first five items, one per line, or "—" when it is empty. */
  function ListAnswer(items: seq<Json>, pretty: Json -> string): string {
    var bullets := seq(|Take(items, 5)|, i requires 0 <= i < |Take(items, 5)| => Bullet(Take(items, 5)[i], pretty));
    var joined := Join(bullets, "\n");
    if joined == "" then Dash else joined
  }

  /** The row of one topic, or none when its answer is empty. */
  function TopicRowOf(topic: string, val: Json, num: real -> string, pretty: Json -> string): (row: Option<TopicRow>)
    ensures row.Some? ==> row.value.topic == topic && row.value.answer != ""
    ensures val.Arr? ==> row.Some? && row.value.cites == ""
    ensures val.Null? ==> row.None?
    ensures val.Str? ==> (row.None? <==> val.s == "")
    ensures val.Obj? && Get(val, "answer").Some? && Get(val, "answer").value.Str? ==>
      (row.None? <==> Get(val, "answer").value.s == "")
      && (row.Some? ==> row.value.answer == Get(val, "answer").value.s)
    ensures row.Some? && !IsArray(Get(val, "citations")) ==> row.value.cites == ""
  {
    if val.Arr? then Some(TopicRow(topic, ListAnswer(val.items, pretty), ""))
    else
      var answer := JsString(Coalesce(Coalesce(Get(val, "answer"), Some(val)), Some(Str(""))), num);
      var cites := ElementTexts(ArrayOr(Get(val, "citations")), num);
      if answer == "" then None
      else Some(TopicRow(topic, answer, if |cites| > 0 then Join(cites, ", ") else ""))
  }

  /** `Array.isArray(v) ? v : []`. */
  function ArrayOr(v: Option<Json>): seq<Json> {
    if IsArray(v) then v.value.items else []
  }

  /** The rows of all topics in order, `_meta` skipped. */
  function TopicRows(fields: seq<(string, Json)>, num: real -> string, pretty: Json -> string): seq<TopicRow> {
    if fields == [] then []
    else
      var last := fields[|fields| - 1];
      var row := if last.0 == "_meta" then None else TopicRowOf(last.0, last.1, num, pretty);
      TopicRows(fields[..|fields| - 1], num, pretty) + (if row.Some? then [row.value] else [])
  }

  /** What `normalizeStructured` returns: no rows unless it is given an object. */
  function StructuredRows(structured: Option<Json>, num: real -> string, pretty: Json -> string): (rows: seq<TopicRow>)
    ensures !IsObject(structured) ==> rows == []
  {
    if IsObject(structured) then TopicRows(structured.value.fields, num, pretty) else []
  }

  /** `normalizeStructured`: the loop over topics. */
  method NormalizeStructured(structured: Option<Json>, num: real -> string, pretty: Json -> string) returns (rows: seq<TopicRow>)
    ensures rows == StructuredRows(structured, num, pretty)
  {
    rows := [];
    if !IsObject(structured) {
      return;
    }
    var fields := structured.value.fields;
    var i := 0;
    while i < |fields|
      invariant 0 <= i <= |fields|
      invariant rows == TopicRows(fields[..i], num, pretty)
    {
      assert fields[..i + 1][..i] == fields[..i];
      var topic := fields[i].0;
      if topic != "_meta" {
        var row := TopicRowOf(topic, fields[i].1, num, pretty);
        if row.Some? {
          rows := rows + [row.value];
        }
      }
      i := i + 1;
    }
    assert fields[..|fields|] == fields;
  }

  lemma JoinNonEmpty(parts: seq<string>, sep: string)
    requires parts != [] && parts[0] != ""
    ensures Join(parts, sep) != "" && Join(parts, sep)[0] == parts[0][0]
  {
  }

  /** An array topic shows "—" exactly when it is empty, and only its first five items ever matter. */
  lemma ListAnswerMeaning(items: seq<Json>, extra: seq<Json>, pretty: Json -> string)
    ensures ListAnswer(items, pretty) == Dash <==> items == []
    ensures |items| >= 5 ==> ListAnswer(items + extra, pretty) == ListAnswer(items, pretty)
  {
    var t := Take(items, 5);
    var bullets := seq(|t|, i requires 0 <= i < |t| => Bullet(t[i], pretty));
    if items != [] {
      JoinNonEmpty(bullets, "\n");
      assert Dash[0] != '•';
    }
    if |items| >= 5 {
      assert Take(items + extra, 5) == t;
    }
  }

  /** No row is about `_meta`, every row has an answer, and every row's topic is a key of the input. */
  lemma {:induction false} TopicRowsMeaning(fields: seq<(string, Json)>, num: real -> string, pretty: Json -> string)
    ensures forall k :: 0 <= k < |TopicRows(fields, num, pretty)| ==>
      TopicRows(fields, num, pretty)[k].topic != "_meta"
      && TopicRows(fields, num, pretty)[k].answer != ""
      && exists i :: 0 <= i < |fields| && fields[i].0 == TopicRows(fields, num, pretty)[k].topic
  {
    if fields != [] {
      var init := fields[..|fields| - 1];
      var last := fields[|fields| - 1];
      TopicRowsMeaning(init, num, pretty);
      var front := TopicRows(init, num, pretty);
      var row := if last.0 == "_meta" then None else TopicRowOf(last.0, last.1, num, pretty);
      var back: seq<TopicRow> := if row.Some? then [row.value] else [];
      assert TopicRows(fields, num, pretty) == front + back;
      if row.Some? && last.1.Arr? {
        ListAnswerMeaning(last.1.items, [], pretty);
      }
      forall k | 0 <= k < |front + back|
        ensures (front + back)[k].topic != "_meta" && (front + back)[k].answer != ""
          && exists i :: 0 <= i < |fields| && fields[i].0 == (front + back)[k].topic
      {
        if k < |front| {
          var i :| 0 <= i < |init| && init[i].0 == front[k].topic;
          assert fields[i] == init[i];
        } else {
          assert fields[|fields| - 1] == last;
        }
      }
    }
  }

  // ---------------------------------------------------------------- unclear items

  datatype UnclearRow = UnclearRow(clause: string, kind: string, snippet: string)

  /** One unclear item: its clause, its issue type and its snippet (or text), each "—" when missing. */
  function UnclearRowOf(x: Json, num: real -> string): (row: UnclearRow)
    ensures Nullish(Get(x, "clause_id")) ==> row.clause == Dash
    ensures Nullish(Get(x, "issue_type")) ==> row.kind == Dash
    ensures Nullish(Get(x, "snippet")) && Nullish(Get(x, "text")) ==> row.snippet == Dash
  {
    UnclearRow(
      ClauseLabel(x, num),
      JsString(Coalesce(Get(x, "issue_type"), Some(Str(Dash))), num),
      JsString(Coalesce(Coalesce(Get(x, "snippet"), Get(x, "text")), Some(Str(Dash))), num))
  }

  /** `normalizeUnclear`: no rows for a non-array, else exactly one row per item, in order. */
  function NormalizeUnclear(unclear: Option<Json>, num: real -> string): (rows: seq<UnclearRow>)
    ensures !IsArray(unclear) ==> rows == []
    ensures IsArray(unclear) ==> (|rows| == |unclear.value.items|
      && forall i :: 0 <= i < |rows| ==> rows[i] == UnclearRowOf(unclear.value.items[i], num))
  {
    if !IsArray(unclear) then []
    else
      var items := unclear.value.items;
      seq(|items|, i requires 0 <= i < |items| => UnclearRowOf(items[i], num))
  }

  // ---------------------------------------------------------------- lawyer questions

  /** `obj?.questions_to_ask_lawyer ?? obj?.lawyer_questions ?? obj?.questions ?? null`. */
  function QuestionList(obj: Option<Json>): (qs: Option<Json>)
    ensures !Nullish(Chain(obj, "questions_to_ask_lawyer")) ==> qs == Chain(obj, "questions_to_ask_lawyer")
    ensures Nullish(Chain(obj, "questions_to_ask_lawyer")) && !Nullish(Chain(obj, "lawyer_questions")) ==>
      qs == Chain(obj, "lawyer_questions")
    ensures Nullish(Chain(obj, "questions_to_ask_lawyer")) && Nullish(Chain(obj, "lawyer_questions")) ==>
      qs == Coalesce(Chain(obj, "questions"), Some(Null))
  {
    Coalesce(Coalesce(Coalesce(Chain(obj, "questions_to_ask_lawyer"), Chain(obj, "lawyer_questions")), Chain(obj, "questions")), Some(Null))
  }

  /** `.filter(Boolean)` on strings: the non-empty ones, in order. */
  function NonEmpty(texts: seq<string>): (kept: seq<string>)
    ensures |kept| <= |texts|
    ensures forall i :: 0 <= i < |kept| ==> kept[i] != "" && kept[i] in texts
    ensures forall i :: 0 <= i < |texts| && texts[i] != "" ==> texts[i] in kept
  {
    if texts == [] then []
    else
      var init := NonEmpty(texts[..|texts| - 1]);
      var last := texts[|texts| - 1];
      assert forall i :: 0 <= i < |texts| - 1 ==> texts[i] == texts[..|texts| - 1][i];
      init + (if last == "" then [] else [last])
  }

  /** Filtering distributes over concatenation: what is kept keeps its order. */
  lemma {:induction false} NonEmptyAppend(a: seq<string>, b: seq<string>)
    ensures NonEmpty(a + b) == NonEmpty(a) + NonEmpty(b)
    decreases |b|
  {
    if b == [] {
      assert a + b == a;
    } else {
      var init := b[..|b| - 1];
      var last := b[|b| - 1];
      assert a + b == (a + init) + [last];
      assert (a + b)[..|a + b| - 1] == a + init;
      assert b[..|b| - 1] == init;
      NonEmptyAppend(a, init);
    }
  }

  /** One text is kept exactly when it is not empty. */
  lemma NonEmptySingle(t: string)
    ensures NonEmpty([t]) == (if t != "" then [t] else [])
  {
    assert [t][..0] == [];
  }

  /** When no text is empty, all of them are kept, in order. */
  lemma {:induction false} NonEmptyKeepsAll(texts: seq<string>)
    requires forall i :: 0 <= i < |texts| ==> texts[i] != ""
    ensures NonEmpty(texts) == texts
  {
    if texts != [] {
      var init := texts[..|texts| - 1];
      assert forall i :: 0 <= i < |init| ==> init[i] == texts[i];
      NonEmptyKeepsAll(init);
      assert texts == init + [texts[|texts| - 1]];
    }
  }

  /** `normalizeLawyerQs`: the text of every question of the first list found, empty ones dropped. */
  function NormalizeLawyerQs(obj: Option<Json>, num: real -> string): (qs: seq<string>)
    ensures !IsArray(QuestionList(obj)) ==> qs == []
    ensures forall i :: 0 <= i < |qs| ==> qs[i] != ""
    ensures IsArray(QuestionList(obj)) ==> var items := QuestionList(obj).value.items;
      |qs| <= |items|
      && (forall i :: 0 <= i < |items| && TextOf(items[i], "question", num) != "" ==> TextOf(items[i], "question", num) in qs)
      && (forall i :: 0 <= i < |qs| ==> exists k :: 0 <= k < |items| && qs[i] == TextOf(items[k], "question", num))
  {
    var list := QuestionList(obj);
    if !IsArray(list) then []
    else
      var items := list.value.items;
      var texts := seq(|items|, i requires 0 <= i < |items| => TextOf(items[i], "question", num));
      assert forall i :: 0 <= i < |items| ==> texts[i] == TextOf(items[i], "question", num);
      NonEmpty(texts)
  }

  /** When every question of the list has a text, the list keeps one entry per question, in order. */
  lemma LawyerQsKeepOrder(obj: Option<Json>, num: real -> string)
    requires IsArray(QuestionList(obj))
    requires forall i :: 0 <= i < |QuestionList(obj).value.items| ==> TextOf(QuestionList(obj).value.items[i], "question", num) != ""
    ensures var items := QuestionList(obj).value.items;
      |NormalizeLawyerQs(obj, num)| == |items|
      && forall i :: 0 <= i < |items| ==> NormalizeLawyerQs(obj, num)[i] == TextOf(items[i], "question", num)
  {
    var items := QuestionList(obj).value.items;
    var texts := seq(|items|, i requires 0 <= i < |items| => TextOf(items[i], "question", num));
    NonEmptyKeepsAll(texts);
  }

  // ---------------------------------------------------------------- the key-clause table

  const SnippetLimit: nat := 260
  const TableLimit: nat := 40

  /** A text longer than 260 characters becomes its first 260 and "…"; a shorter one is kept. */
  function Snippet(text: string): (s: string)
    ensures |text| <= SnippetLimit ==> s == text
    ensures |text| > SnippetLimit ==> |s| == SnippetLimit + 1 && s[..SnippetLimit] == text[..SnippetLimit] && s[SnippetLimit] == '…'
  {
    if |text| > SnippetLimit then text[..SnippetLimit] + "…" else text
  }

  /** The table body: the first 40 rows, each with its text cut to a snippet. */
  function KeyClauseTable(rows: seq<KeyRow>): (body: seq<(string, string, string)>)
    ensures |body| == if |rows| < TableLimit then |rows| else TableLimit
    ensures forall i :: 0 <= i < |body| ==>
      body[i].0 == rows[i].section && body[i].1 == rows[i].clauseId
      && (|rows[i].text| <= SnippetLimit ==> body[i].2 == rows[i].text)
      && (|rows[i].text| > SnippetLimit ==>
            |body[i].2| == SnippetLimit + 1 && body[i].2[..SnippetLimit] == rows[i].text[..SnippetLimit])
  {
    var top := Take(rows, TableLimit);
    seq(|top|, i requires 0 <= i < |top| => (top[i].section, top[i].clauseId, Snippet(top[i].text)))
  }
}
