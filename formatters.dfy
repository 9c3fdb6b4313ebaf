/**
 * The plain-text report formatters of the command-line front end. Each one
 * takes one analysis result and builds the text to print by appending to an
 * output string, section by section and item by item. Every formatter prints
 * `str(x)` for a value that is not the dict (or list) it expects.
 *
 * The results come from parsed model output, so the formatters meet every
 * JSON value. Python iterates a string by character and a dict by key, and it
 * raises where the code calls `.get` on a value that is not a dict, adds a
 * non-string to a string, slices a value that cannot be sliced, compares a
 * non-number with a float or iterates a number. Each text is therefore a
 * `Result`: `Err` names the exception the source raises, and nothing is
 * printed then.
 *
 * Each formatter is a method with its loops, proved equal to a text function;
 * the lemmas at the end state what that text promises (item order, numbering,
 * confidence and risk bands, which keys matter, when it raises).
 */
module Formatters {
  import opened Wrappers
  import opened Strs
  import opened Json

  /** How Python's `str()` renders a number, and a list or dict. */
  datatype Render = Render(num: real -> string, repr: Json -> string)

  /** The exceptions the formatters can raise. */
  datatype PyError = TypeError | AttributeError

  /** A text being built, or the exception that stopped it. */
  type Out = Result<string, PyError>

  /** `str(j)`, which is also what an f-string field `{j}` shows. */
  function Show(j: Json, r: Render): string { PyStr(j, r.num, r.repr) }

  /** Two pieces printed one after the other: the first exception wins. */
  function Cat(a: Out, b: Out): Out {
    if a.Err? then a else if b.Err? then b else Ok(a.value + b.value)
  }

  /** The empty text prints nothing. */
  lemma CatUnit(a: Out)
    ensures Cat(a, Ok("")) == a && Cat(Ok(""), a) == a
  {
    if a.Ok? {
      assert a.value + "" == a.value;
      assert "" + a.value == a.value;
    }
  }

  lemma Assoc(a: string, b: string, c: string)
    ensures a + b + c == a + (b + c)
  {
  }

  lemma CatAssoc(a: Out, b: Out, c: Out)
    ensures Cat(Cat(a, b), c) == Cat(a, Cat(b, c))
  {
    if a.Ok? && b.Ok? && c.Ok? {
      assert a.value + b.value + c.value == a.value + (b.value + c.value);
    }
  }

  /** `d.get(key, default)` on a dict. */
  function Field(d: Json, key: string, default: Json): Json
    requires d.Obj?
  {
    Lookup(d.fields, key).GetOr(default)
  }

  /** `d.get(key, default)` on any value: only a dict has `.get`. */
  function DictGet(d: Json, key: string, default: Json): (v: Result<Json, PyError>)
    ensures d.Obj? <==> v.Ok?
    ensures v.Ok? ==> v.value == Field(d, key, default)
    ensures v.Err? ==> v.error == AttributeError
  {
    if d.Obj? then Ok(Field(d, key, default)) else Err(AttributeError)
  }

  /**
   * What `for x in j` visits: a list's items, a string's characters, a dict's
   * keys; `None`, a bool or a number is not iterable.
   */
  function Iter(j: Json): (items: Result<seq<Json>, PyError>)
    ensures items.Err? <==> (j.Null? || j.Bool? || j.Num? || j.NaN?)
    ensures items.Err? ==> items.error == TypeError
    ensures j.Arr? ==> items == Ok(j.items)
    ensures j.Str? ==> items.Ok? && |items.value| == |j.s| && forall i :: 0 <= i < |j.s| ==> items.value[i] == Str([j.s[i]])
    ensures j.Obj? ==> items.Ok? && |items.value| == |j.fields| && forall i :: 0 <= i < |j.fields| ==> items.value[i] == Str(j.fields[i].0)
  {
    match j
    case Arr(xs) => Ok(xs)
    case Str(s) => Ok(seq(|s|, i requires 0 <= i < |s| => Str([s[i]])))
    case Obj(fs) => Ok(seq(|fs|, i requires 0 <= i < |fs| => Str(fs[i].0)))
    case _ => Err(TypeError)
  }

  /** A value Python can compare with a float: a number, NaN or a bool. */
  predicate PyNumber(j: Json) { j.Num? || j.NaN? || j.Bool? }

  function NumValue(j: Json): real
    requires j.Num? || j.Bool?
  {
    if j.Num? then j.n else if j.b then 1.0 else 0.0
  }

  /** Python `j < c` for a number; every comparison with NaN is false. */
  predicate Below(j: Json, c: real)
    requires PyNumber(j)
  {
    !j.NaN? && NumValue(j) < c
  }

  /** Python `j > c` for a number. */
  predicate Above(j: Json, c: real)
    requires PyNumber(j)
  {
    !j.NaN? && NumValue(j) > c
  }

  /** `", ".join(map(str, xs))`. */
  function JoinShown(xs: seq<Json>, r: Render): string {
    Join(seq(|xs|, i requires 0 <= i < |xs| => Show(xs[i], r)), ", ")
  }

  /** `", ".join(map(str, j))` for any value `j`. */
  function JoinIter(j: Json, r: Render): Out {
    var items := Iter(j);
    if items.Err? then Err(items.error) else Ok(JoinShown(items.value, r))
  }

  /** `f"{text[:n]}..."`: a short text in full, a long one cut to its first `n` characters; then an ellipsis. */
  function Excerpt(text: string, n: nat): (e: string)
    ensures |text| <= n ==> e == text + "..."
    ensures |text| > n ==> |e| == n + 3 && e[..n] == text[..n] && e[n..] == "..."
  {
    Take(text, n) + "..."
  }

  /**
   * `f"{v[:n]}..."` for any value: a string is cut, a list is cut and shown as
   * a list, anything else cannot be sliced.
   */
  function Cut(v: Json, n: nat, r: Render): (e: Out)
    ensures e.Err? <==> !(v.Str? || v.Arr?)
    ensures v.Str? ==> e == Ok(Excerpt(v.s, n))
    ensures v.Arr? ==> e == Ok(Show(Arr(Take(v.items, n)), r) + "...")
  {
    if v.Str? then Ok(Excerpt(v.s, n))
    else if v.Arr? then Ok(Show(Arr(Take(v.items, n)), r) + "...")
    else Err(TypeError)
  }

  // ---------------------------------------------------------------- loops that append one piece per item

  /** The text `for x in items: out += line(x)` appends, in item order, or the first exception. */
  function Lines<T>(items: seq<T>, line: T -> Out): Out {
    if items == [] then Ok("") else Cat(Lines(items[..|items| - 1], line), line(items[|items| - 1]))
  }

  /** A loop over any value: its iteration first, then the lines. */
  function Loop(j: Json, line: Json -> Out): Out {
    var items := Iter(j);
    if items.Err? then Err(items.error) else Lines(items.value, line)
  }

  lemma LinesStep<T>(items: seq<T>, i: nat, line: T -> Out)
    requires i < |items|
    ensures Lines(items[..i + 1], line) == Cat(Lines(items[..i], line), line(items[i]))
  {
    assert items[..i + 1][..i] == items[..i];
  }

  /** Once a prefix has raised, the whole loop has raised the same exception. */
  lemma {:induction false} LinesErrStays<T>(items: seq<T>, i: nat, line: T -> Out)
    requires i <= |items| && Lines(items[..i], line).Err?
    ensures Lines(items, line) == Lines(items[..i], line)
    decreases |items|
  {
    if i == |items| {
      assert items[..i] == items;
    } else {
      var init := items[..|items| - 1];
      assert init[..i] == items[..i];
      LinesErrStays(init, i, line);
    }
  }

  method AppendLines<T>(out0: string, items: seq<T>, line: T -> Out) returns (out: Out)
    ensures out == Cat(Ok(out0), Lines(items, line))
  {
    var acc := out0;
    for i := 0 to |items|
      invariant Lines(items[..i], line).Ok? && acc == out0 + Lines(items[..i], line).value
    {
      var piece := line(items[i]);
      LinesStep(items, i, line);
      if piece.Err? {
        LinesErrStays(items, i + 1, line);
        return Err(piece.error);
      }
      acc := acc + piece.value;
    }
    assert items[..|items|] == items;
    out := Ok(acc);
  }

  /** Appending items appends their lines. */
  lemma {:induction false} LinesAppend<T>(a: seq<T>, b: seq<T>, line: T -> Out)
    ensures Lines(a + b, line) == Cat(Lines(a, line), Lines(b, line))
  {
    if b != [] {
      var init := b[..|b| - 1];
      assert (a + b)[..|a + b| - 1] == a + init;
      LinesAppend(a, init, line);
      CatAssoc(Lines(a, line), Lines(init, line), line(b[|b| - 1]));
    } else {
      assert a + b == a;
      CatUnit(Lines(a, line));
    }
  }

  /** The first item's line comes first: the loop keeps the order of its input. */
  lemma LinesFirst<T>(items: seq<T>, line: T -> Out)
    requires items != []
    ensures Lines(items, line) == Cat(line(items[0]), Lines(items[1..], line))
  {
    assert items == [items[0]] + items[1..];
    LinesAppend([items[0]], items[1..], line);
    assert [items[0]][..0] == [];
    CatUnit(line(items[0]));
  }

  /**
   * The loop raises exactly when some item raises, and then with the first
   * such item's exception; otherwise every item printed.
   */
  lemma {:induction false} LinesRaisesAtFirst<T>(items: seq<T>, line: T -> Out)
    ensures Lines(items, line).Err? <==> exists i :: 0 <= i < |items| && line(items[i]).Err?
    ensures Lines(items, line).Err? ==>
      exists i :: 0 <= i < |items| && line(items[i]) == Lines(items, line) &&
        forall j :: 0 <= j < i ==> line(items[j]).Ok?
  {
    if items != [] {
      var init := items[..|items| - 1];
      LinesRaisesAtFirst(init, line);
      assert forall i :: 0 <= i < |init| ==> init[i] == items[i];
      if Lines(init, line).Err? {
        var i :| 0 <= i < |init| && line(init[i]) == Lines(init, line) && forall j :: 0 <= j < i ==> line(init[j]).Ok?;
        assert line(items[i]) == Lines(items, line);
      } else if line(items[|items| - 1]).Err? {
        assert forall j :: 0 <= j < |init| ==> line(items[j]).Ok?;
      }
    }
  }

  // ---------------------------------------------------------------- format_summary

  const SummaryHeader: string := "\n=== CONTRACT SUMMARY ===\n\n"

  /** `f"- {b}\n"`, the line for one bullet or one missing-clause finding. */
  function Bullet(r: Render): Json -> Out {
    (b: Json) => Ok("- " + Show(b, r) + "\n")
  }

  /** `Key Points:` and one line per bullet, when there are bullets. */
  function KeyPoints(bullets: Json, r: Render): Out {
    if PyTruthy(bullets) then Cat(Ok("Key Points:\n"), Loop(bullets, Bullet(r))) else Ok("")
  }

  /** The citation line, when there are citations. */
  function ReferencedLine(cites: Json, r: Render): Out {
    if !PyTruthy(cites) then Ok("")
    else
      var joined := JoinIter(cites, r);
      if joined.Err? then joined else Ok("\nKey Clauses Referenced: " + joined.value)
  }

  /** The summary text must be a string: `s + "\n\n"` raises otherwise. */
  function SummaryText(x: Json, r: Render): Out {
    if !x.Obj? then Ok(Show(x, r))
    else
      var s := Field(x, "summary", Str(""));
      if !s.Str? then Err(TypeError)
      else Cat(Cat(Ok(SummaryHeader + s.s + "\n\n"), KeyPoints(Field(x, "bullets", Arr([])), r)),
               ReferencedLine(Field(x, "key_citations", Arr([])), r))
  }

  method FormatSummary(x: Json, r: Render) returns (out: Out)
    ensures out == SummaryText(x, r)
  {
    if !x.Obj? {
      return Ok(Show(x, r));
    }
    var s := Field(x, "summary", Str(""));
    var bullets := Field(x, "bullets", Arr([]));
    var cites := Field(x, "key_citations", Arr([]));
    if !s.Str? {
      return Err(TypeError);
    }
    var acc := SummaryHeader;
    acc := acc + s.s + "\n\n";
    var points := RenderKeyPoints(bullets, r);
    if points.Err? {
      return Err(points.error);
    }
    acc := acc + points.value;
    var line := "";
    if PyTruthy(cites) {
      var joined := JoinIter(cites, r);
      if joined.Err? {
        return Err(joined.error);
      }
      line := "\nKey Clauses Referenced: " + joined.value;
    }
    out := Ok(acc + line);
  }

  /** The bullet loop of `format_summary`. */
  method RenderKeyPoints(bullets: Json, r: Render) returns (block: Out)
    ensures block == KeyPoints(bullets, r)
  {
    if !PyTruthy(bullets) {
      return Ok("");
    }
    var items := Iter(bullets);
    if items.Err? {
      return Err(items.error);
    }
    block := AppendLines("Key Points:\n", items.value, Bullet(r));
  }

  /** A summary raises exactly when its text is not a string or a truthy bullets or citations value is not iterable. */
  lemma SummaryRaises(x: Json, r: Render)
    requires x.Obj?
    ensures SummaryText(x, r).Err? <==>
      !Field(x, "summary", Str("")).Str? ||
      (PyTruthy(Field(x, "bullets", Arr([]))) && Iter(Field(x, "bullets", Arr([]))).Err?) ||
      (PyTruthy(Field(x, "key_citations", Arr([]))) && Iter(Field(x, "key_citations", Arr([]))).Err?)
  {
    var bullets := Field(x, "bullets", Arr([]));
    if PyTruthy(bullets) && Iter(bullets).Ok? {
      LinesRaisesAtFirst(Iter(bullets).value, Bullet(r));
    }
  }

  /** A string of bullets is printed one character per line, as Python iterates it. */
  lemma StringBulletsByCharacter(r: Render)
    ensures KeyPoints(Str("ab"), r) == Ok("Key Points:\n- a\n- b\n")
  {
    var items := Iter(Str("ab")).value;
    assert items == [Str("a"), Str("b")];
    assert items[..1] == [Str("a")];
    assert [Str("a")][..0] == [];
    assert Show(Str("a"), r) == "a" && Show(Str("b"), r) == "b";
    assert Bullet(r)(Str("a")) == Ok("- " + Show(Str("a"), r) + "\n");
    assert Bullet(r)(Str("b")) == Ok("- " + Show(Str("b"), r) + "\n");
    assert "- " + "a" + "\n" == "- a\n" && "- " + "b" + "\n" == "- b\n";
    assert Lines([Str("a")], Bullet(r)) == Cat(Ok(""), Ok("- a\n"));
    CatUnit(Ok("- a\n"));
    assert Lines(items, Bullet(r)) == Cat(Lines([Str("a")], Bullet(r)), Ok("- b\n"));
    assert "Key Points:\n" + ("- a\n" + "- b\n") == "Key Points:\n- a\n- b\n";
  }

  // ---------------------------------------------------------------- format_key_clauses

  const KeyClausesHeader: string := "\n=== KEY CLAUSES ===\n"
  const ClauseCut: nat := 500

  /** One clause: its id and the first 500 characters of its text; a clause must be a dict. */
  function ClauseEntry(r: Render): Json -> Out {
    (c: Json) =>
      if !c.Obj? then Err(AttributeError)
      else
        var text := Cut(Field(c, "clause_text", Str("")), ClauseCut, r);
        if text.Err? then text
        else Ok("\n  Clause " + Show(Field(c, "clause_id", Null), r) + ":\n  " + text.value + "\n")
  }

  /** One section: its upper-cased name, then its clauses or "  Not found". */
  function SectionText(section: string, clauses: Json, r: Render): Out {
    Cat(Ok("\n" + Upper(section) + ":\n"),
        if !PyTruthy(clauses) then Ok("  Not found\n") else Loop(clauses, ClauseEntry(r)))
  }

  function SectionEntry(r: Render): ((string, Json)) -> Out {
    (sc: (string, Json)) => SectionText(sc.0, sc.1, r)
  }

  function KeyClausesText(x: Json, r: Render): Out {
    if !x.Obj? then Ok(Show(x, r)) else Cat(Ok(KeyClausesHeader), Lines(x.fields, SectionEntry(r)))
  }

  method FormatKeyClauses(x: Json, r: Render) returns (out: Out)
    ensures out == KeyClausesText(x, r)
  {
    if !x.Obj? {
      return Ok(Show(x, r));
    }
    var acc := KeyClausesHeader;
    var fields := x.fields;
    for i := 0 to |fields|
      invariant Lines(fields[..i], SectionEntry(r)).Ok?
      invariant acc == KeyClausesHeader + Lines(fields[..i], SectionEntry(r)).value
    {
      var entry := RenderSection(fields[i].0, fields[i].1, r);
      assert entry == SectionEntry(r)(fields[i]);
      LinesStep(fields, i, SectionEntry(r));
      assert Lines(fields[..i + 1], SectionEntry(r)) == Cat(Lines(fields[..i], SectionEntry(r)), entry);
      if entry.Err? {
        LinesErrStays(fields, i + 1, SectionEntry(r));
        return Err(entry.error);
      }
      Assoc(KeyClausesHeader, Lines(fields[..i], SectionEntry(r)).value, entry.value);
      acc := acc + entry.value;
    }
    assert fields[..|fields|] == fields;
    out := Ok(acc);
  }

  /** One section of `format_key_clauses`: its heading, then "  Not found" or each clause. */
  method RenderSection(section: string, clauses: Json, r: Render) returns (entry: Out)
    ensures entry == SectionText(section, clauses, r)
  {
    var heading := "\n" + Upper(section) + ":\n";
    if !PyTruthy(clauses) {
      return Ok(heading + "  Not found\n");
    }
    var items := Iter(clauses);
    if items.Err? {
      return Err(items.error);
    }
    entry := AppendLines(heading, items.value, ClauseEntry(r));
  }

  /** A list of clause texts is cut and printed as a list, not rejected. */
  lemma ListClauseTextShown(c: Json, r: Render)
    requires c.Obj? && Field(c, "clause_text", Str("")).Arr?
    ensures ClauseEntry(r)(c) ==
      Ok("\n  Clause " + Show(Field(c, "clause_id", Null), r) + ":\n  "
         + (Show(Arr(Take(Field(c, "clause_text", Str("")).items, ClauseCut)), r) + "...") + "\n")
  {
  }

  // ---------------------------------------------------------------- format_structured_analysis

  const StructuredHeader: string := "\n=== STRUCTURED ANALYSIS ===\n"
  const WeakEvidence: string := "Evidence weak across sections.\n"
  const ModerateEvidence: string := "Moderate evidence strength.\n"
  const StrongEvidence: string := "Strong section-level evidence.\n"

  /** The note under the overall confidence: below 0.50 weak, below 0.70 moderate, otherwise strong. */
  function EvidenceNote(conf: Json): Out {
    if !PyNumber(conf) then Err(TypeError)
    else if Below(conf, 0.50) then Ok(WeakEvidence)
    else if Below(conf, 0.70) then Ok(ModerateEvidence)
    else Ok(StrongEvidence)
  }

  function ConfidenceBlock(conf: Json, r: Render): Out {
    if conf.Null? then Ok("")
    else
      var note := EvidenceNote(conf);
      if note.Err? then note
      else Ok("\nOVERALL STRUCTURED ANALYSIS CONFIDENCE: " + Show(conf, r) + "\n" + note.value + "\n")
  }

  /** `f"... (Citations: ...)\n"` after an entry, when it has citations. */
  function CitationsNote(prefix: string, cites: Json, r: Render): Out {
    if !PyTruthy(cites) then Ok("")
    else
      var joined := JoinIter(cites, r);
      if joined.Err? then joined else Ok(prefix + "(Citations: " + joined.value + ")\n")
  }

  /** One issue of a list section; an issue must be a dict. */
  function IssueEntry(r: Render): Json -> Out {
    (item: Json) =>
      if !item.Obj? then Err(AttributeError)
      else Cat(Ok("- " + Show(Field(item, "issue", Null), r) + "\n"), CitationsNote("  ", Field(item, "citations", Arr([])), r))
  }

  /** A dict section shows its answer and citations, a list section its issues, `_meta` and anything else nothing. */
  function StructuredSection(section: string, data: Json, r: Render): Out {
    if section == "_meta" then Ok("")
    else if data.Obj? then
      Cat(Ok("\n" + Upper(section) + ":\n" + Show(Field(data, "answer", Str("Not found")), r) + "\n"),
          CitationsNote("", Field(data, "citations", Arr([])), r))
    else if data.Arr? then Cat(Ok("\n" + Upper(section) + ":\n"), Lines(data.items, IssueEntry(r)))
    else Ok("")
  }

  function StructuredEntry(r: Render): ((string, Json)) -> Out {
    (sd: (string, Json)) => StructuredSection(sd.0, sd.1, r)
  }

  /** `_meta` must be a dict, since `.get` is called on it. */
  function StructuredText(x: Json, r: Render): Out {
    if !x.Obj? then Ok(Show(x, r))
    else
      var meta := Field(x, "_meta", Obj([]));
      if !meta.Obj? then Err(AttributeError)
      else
        Cat(Cat(Ok(StructuredHeader), ConfidenceBlock(Field(meta, "overall_confidence", Null), r)),
            Lines(x.fields, StructuredEntry(r)))
  }

  method FormatStructuredAnalysis(x: Json, r: Render) returns (out: Out)
    ensures out == StructuredText(x, r)
  {
    if !x.Obj? {
      return Ok(Show(x, r));
    }
    var acc := StructuredHeader;
    var meta := Field(x, "_meta", Obj([]));
    if !meta.Obj? {
      return Err(AttributeError);
    }
    var conf := Field(meta, "overall_confidence", Null);
    var block := RenderConfidence(conf, r);
    if block.Err? {
      return block;
    }
    acc := acc + block.value;
    ghost var head := acc;
    var fields := x.fields;
    for i := 0 to |fields|
      invariant Lines(fields[..i], StructuredEntry(r)).Ok?
      invariant acc == head + Lines(fields[..i], StructuredEntry(r)).value
    {
      var entry := RenderStructuredSection(fields[i].0, fields[i].1, r);
      assert entry == StructuredEntry(r)(fields[i]);
      LinesStep(fields, i, StructuredEntry(r));
      if entry.Err? {
        LinesErrStays(fields, i + 1, StructuredEntry(r));
        assert Lines(fields, StructuredEntry(r)) == entry;
        return Err(entry.error);
      }
      Assoc(head, Lines(fields[..i], StructuredEntry(r)).value, entry.value);
      acc := acc + entry.value;
    }
    assert fields[..|fields|] == fields;
    out := Ok(acc);
  }

  /** The overall-confidence block of `format_structured_analysis`. */
  method RenderConfidence(conf: Json, r: Render) returns (block: Out)
    ensures block == ConfidenceBlock(conf, r)
  {
    if conf.Null? {
      return Ok("");
    }
    if !PyNumber(conf) {
      return Err(TypeError);
    }
    var note;
    if Below(conf, 0.50) {
      note := WeakEvidence;
    } else if Below(conf, 0.70) {
      note := ModerateEvidence;
    } else {
      note := StrongEvidence;
    }
    block := Ok("\nOVERALL STRUCTURED ANALYSIS CONFIDENCE: " + Show(conf, r) + "\n" + note + "\n");
  }

  /** One section of `format_structured_analysis`. */
  method RenderStructuredSection(section: string, data: Json, r: Render) returns (entry: Out)
    ensures entry == StructuredSection(section, data, r)
  {
    if section == "_meta" {
      return Ok("");
    }
    if data.Obj? {
      var answer := Field(data, "answer", Str("Not found"));
      var cites := Field(data, "citations", Arr([]));
      var text := "\n" + Upper(section) + ":\n" + Show(answer, r) + "\n";
      var note := CitationsNote("", cites, r);
      if note.Err? {
        return note;
      }
      return Ok(text + note.value);
    } else if data.Arr? {
      entry := AppendLines("\n" + Upper(section) + ":\n", data.items, IssueEntry(r));
    } else {
      entry := Ok("");
    }
  }

  // ---------------------------------------------------------------- format_unclear

  const UnclearHeader: string := "\n=== UNCLEAR / MISSING CLAUSES ===\n"
  const NothingUnclear: string := "\nNo vague or missing clauses detected.\n"
  const SnippetCut: nat := 400

  /** One finding: id and issue type, then the first 400 characters of its snippet; a finding must be a dict. */
  function FindingEntry(r: Render): Json -> Out {
    (i: Json) =>
      if !i.Obj? then Err(AttributeError)
      else
        var snippet := Cut(Field(i, "snippet", Str("")), SnippetCut, r);
        if snippet.Err? then snippet
        else
          Ok("\nClause " + Show(Field(i, "clause_id", Null), r) + " | " + Show(Field(i, "issue_type", Null), r) + "\n"
             + snippet.value + "\n")
  }

  function UnclearText(x: Json, r: Render): Out {
    if !x.Arr? then Ok(Show(x, r))
    else if x.items == [] then Ok(UnclearHeader + NothingUnclear)
    else Cat(Ok(UnclearHeader), Lines(x.items, FindingEntry(r)))
  }

  method FormatUnclear(x: Json, r: Render) returns (out: Out)
    ensures out == UnclearText(x, r)
  {
    if !x.Arr? {
      return Ok(Show(x, r));
    }
    if x.items == [] {
      return Ok(UnclearHeader + NothingUnclear);
    }
    out := AppendLines(UnclearHeader, x.items, FindingEntry(r));
  }

  // ---------------------------------------------------------------- format_lawyer_questions

  const QuestionsHeader: string := "\n=== QUESTIONS TO ASK A LAWYER ===\n"

  /** Question number `n`: the question, its reason, and its citations when there are any; a question must be a dict. */
  function QuestionEntry(n: nat, q: Json, r: Render): Out {
    if !q.Obj? then Err(AttributeError)
    else
      Cat(Ok("\n" + NatToString(n) + ". " + Show(Field(q, "question", Null), r) + "\n"
             + "   Reason: " + Show(Field(q, "reason", Null), r) + "\n"),
          CitationsNote("   ", Field(q, "citations", Arr([])), r))
  }

  /** The questions as the loop appends them: the one at position `k` numbered `k + 1`. */
  function Questions(qs: seq<Json>, r: Render): Out {
    if qs == [] then Ok("") else Cat(Questions(qs[..|qs| - 1], r), QuestionEntry(|qs|, qs[|qs| - 1], r))
  }

  lemma {:induction false} QuestionsErrStays(qs: seq<Json>, i: nat, r: Render)
    requires i <= |qs| && Questions(qs[..i], r).Err?
    ensures Questions(qs, r) == Questions(qs[..i], r)
    decreases |qs|
  {
    if i == |qs| {
      assert qs[..i] == qs;
    } else {
      var init := qs[..|qs| - 1];
      assert init[..i] == qs[..i];
      QuestionsErrStays(init, i, r);
    }
  }

  function QuestionsText(x: Json, r: Render): Out {
    if !x.Arr? then Ok(Show(x, r)) else Cat(Ok(QuestionsHeader), Questions(x.items, r))
  }

  method FormatLawyerQuestions(x: Json, r: Render) returns (out: Out)
    ensures out == QuestionsText(x, r)
  {
    if !x.Arr? {
      return Ok(Show(x, r));
    }
    var acc := QuestionsHeader;
    var qs := x.items;
    var i := 0;
    while i < |qs|
      invariant 0 <= i <= |qs|
      invariant Questions(qs[..i], r).Ok? && acc == QuestionsHeader + Questions(qs[..i], r).value
    {
      var entry := RenderQuestion(i + 1, qs[i], r);
      assert qs[..i + 1][..i] == qs[..i];
      assert Questions(qs[..i + 1], r) == Cat(Questions(qs[..i], r), entry);
      if entry.Err? {
        QuestionsErrStays(qs, i + 1, r);
        return entry;
      }
      Assoc(QuestionsHeader, Questions(qs[..i], r).value, entry.value);
      acc := acc + entry.value;
      i := i + 1;
    }
    assert qs[..|qs|] == qs;
    out := Ok(acc);
  }

  /** One question of `format_lawyer_questions`. */
  method RenderQuestion(n: nat, q: Json, r: Render) returns (entry: Out)
    ensures entry == QuestionEntry(n, q, r)
  {
    if !q.Obj? {
      return Err(AttributeError);
    }
    var text := "\n" + NatToString(n) + ". " + Show(Field(q, "question", Null), r) + "\n";
    text := text + "   Reason: " + Show(Field(q, "reason", Null), r) + "\n";
    var note := CitationsNote("   ", Field(q, "citations", Arr([])), r);
    if note.Err? {
      return note;
    }
    entry := Ok(text + note.value);
  }

  /** Questions numbered from `n` on, first to last: an independent statement of the numbering. */
  function NumberedFrom(n: nat, qs: seq<Json>, r: Render): Out
    decreases |qs|
  {
    if qs == [] then Ok("") else Cat(QuestionEntry(n, qs[0], r), NumberedFrom(n + 1, qs[1..], r))
  }

  lemma {:induction false} NumberedFromSnoc(n: nat, qs: seq<Json>, q: Json, r: Render)
    decreases |qs|
    ensures NumberedFrom(n, qs + [q], r) == Cat(NumberedFrom(n, qs, r), QuestionEntry(n + |qs|, q, r))
  {
    if qs == [] {
      assert (qs + [q])[1..] == [];
      CatUnit(QuestionEntry(n, q, r));
    } else {
      assert (qs + [q])[1..] == qs[1..] + [q];
      NumberedFromSnoc(n + 1, qs[1..], q, r);
      CatAssoc(QuestionEntry(n, qs[0], r), NumberedFrom(n + 1, qs[1..], r), QuestionEntry(n + |qs|, q, r));
    }
  }

  /** The questions are numbered 1, 2, 3, ... in list order. */
  lemma {:induction false} QuestionsNumberedFromOne(qs: seq<Json>, r: Render)
    ensures Questions(qs, r) == NumberedFrom(1, qs, r)
  {
    if qs != [] {
      var init := qs[..|qs| - 1];
      QuestionsNumberedFromOne(init, r);
      NumberedFromSnoc(1, init, qs[|qs| - 1], r);
      assert init + [qs[|qs| - 1]] == qs;
    }
  }

  /** A question that is a bare string raises, as `.get` is called on it. */
  lemma StringQuestionRaises(q: string, r: Render)
    ensures QuestionsText(Arr([Str(q)]), r) == Err(AttributeError)
  {
    assert [Str(q)][..0] == [];
    assert Questions([Str(q)], r) == Cat(Questions([], r), QuestionEntry(1, Str(q), r));
  }

  // ---------------------------------------------------------------- format_risk_report

  const RiskHeader: string := "\n=== FULL CONTRACT RISK REPORT ===\n"
  const HighRisk: string := " High overall contract risk!!\n"
  const ModerateRisk: string := "Moderate contract risk.\n"
  const LowRisk: string := "\U{2713}  Low overall contract risk.\n"

  /** Above 0.75 high, above 0.50 moderate, otherwise (NaN included) low. */
  function RiskNote(score: Json): Out {
    if !PyNumber(score) then Err(TypeError)
    else if Above(score, 0.75) then Ok(HighRisk)
    else if Above(score, 0.50) then Ok(ModerateRisk)
    else Ok(LowRisk)
  }

  /** One present risk; the confidence line only when a confidence is given; a risk must be a dict. */
  function PresentEntry(r: Render): Json -> Out {
    (p: Json) =>
      if !p.Obj? then Err(AttributeError)
      else
        var conf := Field(p, "confidence", Null);
        Ok("\nClause " + Show(Field(p, "clause_id", Null), r) + " | " + Show(Field(p, "risk_type", Null), r)
           + " | " + Show(Field(p, "risk_level", Null), r) + "\n"
           + (if !conf.Null? then "Confidence: " + Show(conf, r) + "\n" else "")
           + "Explanation: " + Show(Field(p, "explanation", Null), r) + "\n"
           + "Mitigation: " + Show(Field(p, "mitigation", Null), r) + "\n")
  }

  function AdditionalEntry(r: Render): Json -> Out {
    (a: Json) =>
      if !a.Obj? then Err(AttributeError)
      else Ok("- " + Show(Field(a, "risk_type", Null), r) + " (" + Show(Field(a, "risk_level", Null), r) + ")\n")
  }

  function ScoreBlock(overall: Json, r: Render): Out {
    if overall.Null? then Ok("")
    else
      var note := RiskNote(overall);
      if note.Err? then note else Ok("\nOVERALL CONTRACT RISK SCORE: " + Show(overall, r) + "\n" + note.value)
  }

  function PresentBlock(present: Json, r: Render): Out {
    if PyTruthy(present) then Cat(Ok("\nPRESENT RISKS:\n"), Loop(present, PresentEntry(r))) else Ok("")
  }

  /** A truthy `missing` must be a dict, since `.get` is called on it. */
  function MissingBlock(missing: Json, r: Render): Out {
    if !PyTruthy(missing) then Ok("")
    else if !missing.Obj? then Err(AttributeError)
    else
      var findings := Field(missing, "findings", Arr([]));
      if PyTruthy(findings) then Cat(Ok("\nMISSING CLAUSES:\n"), Loop(findings, Bullet(r))) else Ok("")
  }

  function AdditionalBlock(additional: Json, r: Render): Out {
    if PyTruthy(additional) then Cat(Ok("\nADDITIONAL RISKS:\n"), Loop(additional, AdditionalEntry(r))) else Ok("")
  }

  function RiskText(x: Json, r: Render): Out {
    if !x.Obj? then Ok(Show(x, r))
    else
      Cat(Cat(Cat(Cat(Ok(RiskHeader), ScoreBlock(Field(x, "overall_risk_score", Null), r)),
                  PresentBlock(Field(x, "present_risks", Arr([])), r)),
              MissingBlock(Field(x, "missing_risks", Obj([])), r)),
          AdditionalBlock(Field(x, "additional_risks", Arr([])), r))
  }

  method FormatRiskReport(x: Json, r: Render) returns (out: Out)
    ensures out == RiskText(x, r)
  {
    if !x.Obj? {
      return Ok(Show(x, r));
    }
    var acc := RiskHeader;
    var overall := Field(x, "overall_risk_score", Null);
    var present := Field(x, "present_risks", Arr([]));
    var missing := Field(x, "missing_risks", Obj([]));
    var additional := Field(x, "additional_risks", Arr([]));
    var score := "";
    if !overall.Null? {
      if !PyNumber(overall) {
        return Err(TypeError);
      }
      var note;
      if Above(overall, 0.75) {
        note := HighRisk;
      } else if Above(overall, 0.50) {
        note := ModerateRisk;
      } else {
        note := LowRisk;
      }
      score := "\nOVERALL CONTRACT RISK SCORE: " + Show(overall, r) + "\n" + note;
    }
    acc := acc + score;
    assert Ok(acc) == Cat(Ok(RiskHeader), ScoreBlock(overall, r));
    var block := PresentRisks(present, r);
    if block.Err? {
      return Err(block.error);
    }
    acc := acc + block.value;
    block := MissingClauses(missing, r);
    if block.Err? {
      return Err(block.error);
    }
    acc := acc + block.value;
    block := AdditionalRisks(additional, r);
    if block.Err? {
      return Err(block.error);
    }
    out := Ok(acc + block.value);
  }

  /** The present-risks loop of `format_risk_report`. */
  method PresentRisks(present: Json, r: Render) returns (block: Out)
    ensures block == PresentBlock(present, r)
  {
    if !PyTruthy(present) {
      return Ok("");
    }
    var items := Iter(present);
    if items.Err? {
      return Err(items.error);
    }
    block := AppendLines("\nPRESENT RISKS:\n", items.value, PresentEntry(r));
  }

  /** The missing-clauses loop of `format_risk_report`. */
  method MissingClauses(missing: Json, r: Render) returns (block: Out)
    ensures block == MissingBlock(missing, r)
  {
    if !PyTruthy(missing) {
      return Ok("");
    }
    var findings := DictGet(missing, "findings", Arr([]));
    if findings.Err? {
      return Err(findings.error);
    }
    if !PyTruthy(findings.value) {
      return Ok("");
    }
    var items := Iter(findings.value);
    if items.Err? {
      return Err(items.error);
    }
    block := AppendLines("\nMISSING CLAUSES:\n", items.value, Bullet(r));
  }

  /** The additional-risks loop of `format_risk_report`. */
  method AdditionalRisks(additional: Json, r: Render) returns (block: Out)
    ensures block == AdditionalBlock(additional, r)
  {
    if !PyTruthy(additional) {
      return Ok("");
    }
    var items := Iter(additional);
    if items.Err? {
      return Err(items.error);
    }
    block := AppendLines("\nADDITIONAL RISKS:\n", items.value, AdditionalEntry(r));
  }

  /** A score that is present but not a number cannot be compared with 0.75, so the report raises. */
  lemma NonNumericScoreRaises(x: Json, r: Render)
    requires x.Obj?
    requires var s := Field(x, "overall_risk_score", Null); !s.Null? && !PyNumber(s)
    ensures RiskText(x, r) == Err(TypeError)
  {
  }

  // ---------------------------------------------------------------- format_full_report

  const ReportBanner: string :=
    "\n==============================\n" + " COMPLETE CONTRACT REPORT\n" + "==============================\n"

  /** A part of the report followed by its blank-line separator. */
  function Sep(a: Out): Out { Cat(a, Ok("\n\n")) }

  /**
   * Banner, then summary, key clauses, structured analysis, unclear clauses
   * and lawyer questions, in that order; the first part that raises stops it.
   */
  function FullReportText(x: Json, r: Render): Out {
    if !x.Obj? then Ok(Show(x, r))
    else
      Cat(Sep(Cat(Sep(Cat(Sep(Cat(Sep(Cat(Ok(ReportBanner), SummaryText(Field(x, "summary", Obj([])), r))),
                                      KeyClausesText(Field(x, "key_clauses", Obj([])), r))),
                              StructuredText(Field(x, "structured_analysis", Obj([])), r))),
                      UnclearText(Field(x, "unclear_or_missing", Arr([])), r))),
          QuestionsText(Field(x, "questions_to_ask_lawyer", Arr([])), r))
  }

  method FormatFullReport(x: Json, r: Render) returns (out: Out)
    ensures out == FullReportText(x, r)
  {
    if !x.Obj? {
      return Ok(Show(x, r));
    }
    var acc := ReportBanner;
    var part := FormatSummary(Field(x, "summary", Obj([])), r);
    if part.Err? {
      return Err(part.error);
    }
    acc := acc + part.value + "\n\n";
    part := FormatKeyClauses(Field(x, "key_clauses", Obj([])), r);
    if part.Err? {
      return Err(part.error);
    }
    acc := acc + part.value + "\n\n";
    part := FormatStructuredAnalysis(Field(x, "structured_analysis", Obj([])), r);
    if part.Err? {
      return Err(part.error);
    }
    acc := acc + part.value + "\n\n";
    part := FormatUnclear(Field(x, "unclear_or_missing", Arr([])), r);
    if part.Err? {
      return Err(part.error);
    }
    acc := acc + part.value + "\n\n";
    part := FormatLawyerQuestions(Field(x, "questions_to_ask_lawyer", Arr([])), r);
    if part.Err? {
      return Err(part.error);
    }
    out := Ok(acc + part.value);
  }

  /** The report reads only its five sections: any other key, the risk report included, changes nothing. */
  lemma FullReportIgnoresOtherKeys(fields: seq<(string, Json)>, key: string, v: Json, r: Render)
    requires key !in {"summary", "key_clauses", "structured_analysis", "unclear_or_missing", "questions_to_ask_lawyer"}
    ensures FullReportText(Obj(Put(fields, key, v)), r) == FullReportText(Obj(fields), r)
  {
    var g := Put(fields, key, v);
    assert Field(Obj(g), "summary", Obj([])) == Field(Obj(fields), "summary", Obj([]));
    assert Field(Obj(g), "key_clauses", Obj([])) == Field(Obj(fields), "key_clauses", Obj([]));
    assert Field(Obj(g), "structured_analysis", Obj([])) == Field(Obj(fields), "structured_analysis", Obj([]));
    assert Field(Obj(g), "unclear_or_missing", Arr([])) == Field(Obj(fields), "unclear_or_missing", Arr([]));
    assert Field(Obj(g), "questions_to_ask_lawyer", Arr([])) == Field(Obj(fields), "questions_to_ask_lawyer", Arr([]));
  }

  /** A summary that raises stops the whole report with its exception. */
  lemma FullReportStopsAtSummary(x: Json, r: Render)
    requires x.Obj? && SummaryText(Field(x, "summary", Obj([])), r).Err?
    ensures FullReportText(x, r) == SummaryText(Field(x, "summary", Obj([])), r)
  {
  }

  // ---------------------------------------------------------------- format_qa

  const VeryLowWarning: string := "Very low confidence. Retrieved clauses weakly match the query.\n"
  const ModerateWarning: string := "Moderate confidence. Consider reviewing cited clauses.\n"

  /** Below 0.45 a very-low warning, below 0.60 a moderate one, otherwise none. */
  function QaWarning(conf: Json): Out {
    if !PyNumber(conf) then Err(TypeError)
    else if Below(conf, 0.45) then Ok(VeryLowWarning)
    else if Below(conf, 0.60) then Ok(ModerateWarning)
    else Ok("")
  }

  /** `[QA via method] `, when a method is named. */
  function MethodPrefix(x: Json, r: Render): string
    requires x.Obj?
  {
    var method_ := Field(x, "method", Str(""));
    if PyTruthy(method_) then "[QA via " + Show(method_, r) + "] " else ""
  }

  function ConfidencePart(conf: Json, r: Render): Out {
    if conf.Null? then Ok("")
    else
      var warning := QaWarning(conf);
      if warning.Err? then warning else Ok("(confidence: " + Show(conf, r) + ")\n\n" + warning.value + "\n")
  }

  function CitationsPart(cites: Json, r: Render): Out {
    if !PyTruthy(cites) then Ok("")
    else
      var joined := JoinIter(cites, r);
      if joined.Err? then joined else Ok("\n\nCitations: " + joined.value)
  }

  /** A QA result: method prefix, confidence and warning, the stripped answer, citations. */
  function FormatQa(x: Json, r: Render): (out: Out)
    ensures !x.Obj? ==> out == Ok(Show(x, r))
    ensures x.Obj? ==>
      (out.Err? <==>
        (var conf := Field(x, "confidence", Null); !conf.Null? && !PyNumber(conf)) ||
        (var cites := Field(x, "citations", Arr([])); PyTruthy(cites) && Iter(cites).Err?))
  {
    if !x.Obj? then Ok(Show(x, r))
    else
      var ans := Field(x, "answer", Str(""));
      Cat(Cat(Ok(MethodPrefix(x, r)), ConfidencePart(Field(x, "confidence", Null), r)),
          Cat(Ok(Trim(Show(ans, r))), CitationsPart(Field(x, "citations", Arr([])), r)))
  }

  // ---------------------------------------------------------------- properties of the texts

  /** The three evidence notes split the scores at 0.50 and 0.70, lower bounds inclusive. */
  lemma EvidenceBands(c: real)
    ensures EvidenceNote(Num(c)) == Ok(WeakEvidence) <==> c < 0.50
    ensures EvidenceNote(Num(c)) == Ok(ModerateEvidence) <==> 0.50 <= c < 0.70
    ensures EvidenceNote(Num(c)) == Ok(StrongEvidence) <==> 0.70 <= c
  {
  }

  /** The risk bands are strict: a score of exactly 0.75 is moderate and exactly 0.50 is low. */
  lemma RiskBands(c: real)
    ensures RiskNote(Num(c)) == Ok(HighRisk) <==> c > 0.75
    ensures RiskNote(Num(c)) == Ok(ModerateRisk) <==> 0.50 < c <= 0.75
    ensures RiskNote(Num(c)) == Ok(LowRisk) <==> c <= 0.50
  {
  }

  /** A QA warning appears exactly below 0.60, the very-low one exactly below 0.45. */
  lemma QaWarningBands(c: real)
    ensures QaWarning(Num(c)) == Ok(VeryLowWarning) <==> c < 0.45
    ensures QaWarning(Num(c)) == Ok(ModerateWarning) <==> 0.45 <= c < 0.60
    ensures QaWarning(Num(c)) == Ok("") <==> 0.60 <= c
  {
  }

  /** NaN compares false everywhere: it reads as strong evidence, low risk and no QA warning. */
  lemma NaNBands()
    ensures EvidenceNote(NaN) == Ok(StrongEvidence)
    ensures RiskNote(NaN) == Ok(LowRisk)
    ensures QaWarning(NaN) == Ok("")
  {
  }

  /** A string, list or dict compared with a float raises, in all three bands. */
  lemma NonNumberComparisonRaises(j: Json)
    ensures EvidenceNote(j).Err? <==> !PyNumber(j)
    ensures RiskNote(j).Err? <==> !PyNumber(j)
    ensures QaWarning(j).Err? <==> !PyNumber(j)
  {
  }

  /** A falsy section prints its heading and "  Not found", whatever falsy value it holds. */
  lemma EmptySectionNotFound(section: string, clauses: Json, r: Render)
    requires !PyTruthy(clauses)
    ensures SectionEntry(r)((section, clauses)) == Ok("\n" + Upper(section) + ":\n" + "  Not found\n")
  {
  }

  /** The `_meta` entry contributes nothing to the sections listed after the confidence block. */
  lemma MetaNotListed(meta: Json, r: Render)
    ensures StructuredEntry(r)(("_meta", meta)) == Ok("")
  {
  }

  /** A string of citations is joined character by character. */
  lemma StringCitationsByCharacter(r: Render)
    ensures CitationsPart(Str("12"), r) == Ok("\n\nCitations: 1, 2")
  {
    var items := Iter(Str("12")).value;
    assert items == [Str("1"), Str("2")];
    var shown := seq(|items|, i requires 0 <= i < |items| => Show(items[i], r));
    assert shown == ["1", "2"];
    assert Join(shown, ", ") == "1, 2" by {
      assert shown[1..] == ["2"];
      assert Join(shown[1..], ", ") == "2";
      assert Join(shown, ", ") == "1" + ", " + "2";
    }
    assert JoinIter(Str("12"), r) == Ok("1, 2");
    assert "\n\nCitations: " + "1, 2" == "\n\nCitations: 1, 2";
  }

  lemma PrefixTrans(p: string, a: string, b: string, c: string)
    requires |p| <= |a| && a[..|p|] == p && |a| <= |b| && b[..|a|] == a && |b| <= |c| && c[..|b|] == b
    ensures p <= c
  {
    assert c[..|p|] == b[..|a|][..|p|];
  }

  /** A named method comes first, as `[QA via method] `. */
  lemma QaMethodFirst(x: Json, r: Render)
    requires x.Obj? && PyTruthy(Field(x, "method", Str("")))
    ensures FormatQa(x, r).Ok? ==> "[QA via " + Show(Field(x, "method", Str("")), r) + "] " <= FormatQa(x, r).value
  {
    if FormatQa(x, r).Ok? {
      var p := MethodPrefix(x, r);
      var a := p + ConfidencePart(Field(x, "confidence", Null), r).value;
      var b := a + Trim(Show(Field(x, "answer", Str("")), r));
      assert FormatQa(x, r).value == b + CitationsPart(Field(x, "citations", Arr([])), r).value;
      PrefixTrans(p, a, b, FormatQa(x, r).value);
    }
  }

  /** Without citations the stripped answer is the last thing printed. */
  lemma QaAnswerLast(x: Json, r: Render)
    requires x.Obj? && !PyTruthy(Field(x, "citations", Arr([])))
    ensures FormatQa(x, r).Ok? ==>
      var ans := Trim(Show(Field(x, "answer", Str("")), r));
      var out := FormatQa(x, r).value;
      |ans| <= |out| && out[|out| - |ans|..] == ans
  {
    if FormatQa(x, r).Ok? {
      var ans := Trim(Show(Field(x, "answer", Str("")), r));
      var p := MethodPrefix(x, r) + ConfidencePart(Field(x, "confidence", Null), r).value;
      assert ans + "" == ans;
      assert FormatQa(x, r).value == p + ans;
    }
  }

  /** With no method, no confidence and no citations, a QA answer prints as just the stripped answer. */
  lemma BareQaAnswer(x: Json, r: Render)
    requires x.Obj?
    requires !PyTruthy(Field(x, "method", Str(""))) && Field(x, "confidence", Null).Null?
    requires !PyTruthy(Field(x, "citations", Arr([])))
    ensures FormatQa(x, r) == Ok(Trim(Show(Field(x, "answer", Str("")), r)))
  {
    var ans := Trim(Show(Field(x, "answer", Str("")), r));
    assert ans + "" == ans && "" + "" == "" && "" + ans == ans;
  }
}
