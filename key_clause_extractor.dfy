/**
 * tools/key_clause_extractor.py: for each key topic, the clauses the
 * similarity search returns, filtered by a distance ceiling (and, for
 * payment, by a keyword check) and capped per topic.
 *
 * The vector store is a `Retriever`: either it offers scored search
 * (`search_with_scores`) or only plain text search (`search`). Both are
 * parameters; nothing is assumed about what they return.
 */
module KeyClauseExtractor {
  import opened Wrappers
  import opened Strs

  /** `KEY_TOPICS`: topic key and the query sent to the search. */
  const KeyTopics: seq<(string, string)> := [
    ("termination", "Termination / exit / resignation / notice"),
    ("payment", "salary CTC compensation pay wages bonus allowance deduction PF ESI reimbursement"),
    ("confidentiality", "Confidentiality / NDA / trade secrets"),
    ("non_compete", "Non-compete / non-solicit / restraint"),
    ("ip", "Intellectual property / inventions / source code ownership"),
    ("dispute", "Dispute resolution / arbitration / jurisdiction"),
    ("liability", "Liability / damages / indemnity"),
    ("other_important", "Important obligations, penalties, restrictions, unusual terms, red flags")
  ]

  const PaymentKeywords: seq<string> := [
    "salary", "ctc", "remuneration", "wage", "stipend", "payable",
    "allowance", "bonus", "deduction", "payslip", "inr", "₹", "rs.", "rupees"
  ]

  const DefaultMaxDist: real := 1.20
  const PaymentMaxDist: real := 1.10
  const DefaultTopK: int := 3

  /** `looks_like_payment(txt)`. */
  predicate LooksLikePayment(txt: string) {
    ContainsAny(Lower(txt), PaymentKeywords)
  }

  /** A search hit in one of the shapes the loop accepts. */
  datatype Hit =
    | Triple(id: Option<int>, text: Option<string>, dist: Option<real>)   // (clause_id, clause_text, dist)
    | Pair(text: Option<string>, dist: Option<real>)                        // (clause_text, dist)
    | Other(repr: string)                                                   // anything else, seen through str(h)

  /** One entry of a topic list: `{"clause_id": ..., "clause_text": ...}`. */
  datatype KeyClause = KeyClause(clauseId: Option<int>, clauseText: string)

  const NotFoundEntry: KeyClause := KeyClause(None, "Not found")

  datatype Retriever =
    | Scored(searchWithScores: (string, int) -> seq<Hit>)
    | Unscored(search: (string, int) -> seq<string>)

  /** The distance ceiling of a topic. */
  function MaxDist(key: string): (r: real)
    ensures key == "payment" ==> r == PaymentMaxDist
    ensures key != "payment" ==> r == DefaultMaxDist
  {
    if key == "payment" then PaymentMaxDist else DefaultMaxDist
  }

  /** The three variables the loop body unpacks from a hit. */
  function Unpack(h: Hit): (r: (Option<int>, Option<string>, Option<real>))
    ensures !h.Triple? ==> r.0 == None
    ensures h.Other? ==> r.1 == Some(h.repr) && r.2 == None
    ensures !h.Other? ==> r.1 == h.text && r.2 == h.dist
  {
    match h
    case Triple(id, text, dist) => (id, text, dist)
    case Pair(text, dist) => (None, text, dist)
    case Other(repr) => (None, Some(repr), None)
  }

  /** A hit survives the three `continue` guards of the loop. */
  predicate Accept(key: string, h: Hit) {
    var (_, text, dist) := Unpack(h);
    && text.Some?
    && !(dist.Some? && dist.value > MaxDist(key))
    && !(key == "payment" && !LooksLikePayment(text.value))
  }

  /** The entry a surviving hit becomes. */
  function Entry(h: Hit): (e: KeyClause)
    requires Unpack(h).1.Some?
    ensures e.clauseText == Unpack(h).1.value && e.clauseId == Unpack(h).0
  {
    KeyClause(Unpack(h).0, Unpack(h).1.value)
  }

  /** All surviving hits, as entries, in hit order (the loop without its cap). */
  function Filtered(key: string, hits: seq<Hit>): (r: seq<KeyClause>)
    ensures |r| <= |hits|
  {
    if hits == [] then []
    else
      var last := hits[|hits| - 1];
      Filtered(key, hits[..|hits| - 1]) + (if Accept(key, last) then [Entry(last)] else [])
  }

  /** After each append the loop breaks once `len(picked) >= top_k`; so at least one entry is always allowed. */
  function Cap(topK: int): (c: nat)
    ensures c >= 1 && c >= topK
  {
    if topK < 1 then 1 else topK
  }

  /** The topic list on the scored path. */
  function Picked(key: string, hits: seq<Hit>, topK: int): seq<KeyClause> {
    var f := Filtered(key, hits);
    if f == [] then [NotFoundEntry] else Take(f, Cap(topK))
  }

  /** The inner loop of `extract_key_clauses` over the hits of one topic. */
  method PickHits(key: string, hits: seq<Hit>, topK: int) returns (picked: seq<KeyClause>)
    ensures picked == Picked(key, hits, topK)
  {
    var maxDist := if key == "payment" then PaymentMaxDist else DefaultMaxDist;
    picked := [];
    var i := 0;
    while i < |hits|
      invariant 0 <= i <= |hits|
      invariant picked == Filtered(key, hits[..i])
      invariant |picked| < Cap(topK)
    {
      assert hits[..i + 1][..i] == hits[..i];
      var clauseId: Option<int> := None;
      var clauseText: Option<string> := None;
      var dist: Option<real> := None;
      match hits[i] {
        case Triple(id, t, d) =>
          clauseId, clauseText, dist := id, t, d;
        case Pair(t, d) =>
          clauseText, dist := t, d;
        case Other(repr) =>
          clauseText, dist := Some(repr), None;
      }
      if clauseText.None? {
        i := i + 1;
        continue;
      }
      if dist.Some? && dist.value > maxDist {
        i := i + 1;
        continue;
      }
      if key == "payment" && !LooksLikePayment(clauseText.value) {
        i := i + 1;
        continue;
      }
      picked := picked + [KeyClause(clauseId, clauseText.value)];
      if |picked| >= topK {
        FilteredPrefix(key, hits, i + 1);
        assert picked == Take(Filtered(key, hits), Cap(topK));
        return;
      }
      i := i + 1;
    }
    assert hits[..i] == hits;
    if |picked| == 0 {
      picked := [NotFoundEntry];
    }
  }

  /** The per-topic value of `results` for either kind of store. */
  function TopicResult(r: Retriever, key: string, query: string, topK: int): seq<KeyClause> {
    match r
    case Scored(searchWithScores) => Picked(key, searchWithScores(query, topK * 5), topK)
    case Unscored(search) => RawEntries(search(query, topK))
  }

  /** `[{"clause_id": None, "clause_text": h} for h in raw_hits]`. */
  function RawEntries(raw: seq<string>): (r: seq<KeyClause>)
    ensures |r| == |raw|
    ensures forall j :: 0 <= j < |raw| ==> r[j] == KeyClause(None, raw[j])
  {
    if raw == [] then [] else [KeyClause(None, raw[0])] + RawEntries(raw[1..])
  }

  /** `extract_key_clauses(store, vector_store, top_k)`; the result dict is an ordered list of (topic, entries). */
  method ExtractKeyClauses(r: Retriever, topK: int) returns (results: seq<(string, seq<KeyClause>)>)
    ensures |results| == |KeyTopics|
    ensures forall t :: 0 <= t < |KeyTopics| ==>
      results[t] == (KeyTopics[t].0, TopicResult(r, KeyTopics[t].0, KeyTopics[t].1, topK))
  {
    results := [];
    for t := 0 to |KeyTopics|
      invariant |results| == t
      invariant forall u :: 0 <= u < t ==>
        results[u] == (KeyTopics[u].0, TopicResult(r, KeyTopics[u].0, KeyTopics[u].1, topK))
    {
      var (key, query) := KeyTopics[t];
      match r {
        case Unscored(search) =>
          var rawHits := search(query, topK);
          var entries := [];
          for j := 0 to |rawHits|
            invariant entries == RawEntries(rawHits[..j])
          {
            assert rawHits[..j + 1] == rawHits[..j] + [rawHits[j]];
            RawEntriesAppend(rawHits[..j], rawHits[j]);
            entries := entries + [KeyClause(None, rawHits[j])];
          }
          assert rawHits[..|rawHits|] == rawHits;
          results := results + [(key, entries)];
        case Scored(searchWithScores) =>
          var hits := searchWithScores(query, topK * 5);
          var picked := PickHits(key, hits, topK);
          results := results + [(key, picked)];
      }
    }
  }

  lemma RawEntriesAppend(raw: seq<string>, h: string)
    ensures RawEntries(raw + [h]) == RawEntries(raw) + [KeyClause(None, h)]
  {
  }

  // ---------------------------------------------------------------------
  // Properties of the filter.

  /** Filtering distributes over concatenation: the filter keeps hit order. */
  lemma {:induction false} FilteredAppend(key: string, a: seq<Hit>, b: seq<Hit>)
    ensures Filtered(key, a + b) == Filtered(key, a) + Filtered(key, b)
  {
    if b == [] {
      assert a + b == a;
    } else {
      var b' := b[..|b| - 1];
      assert (a + b)[..|a + b| - 1] == a + b';
      FilteredAppend(key, a, b');
    }
  }

  /** The entries picked from a prefix of the hits are a prefix of those picked from all of them. */
  lemma FilteredPrefix(key: string, hits: seq<Hit>, i: nat)
    requires i <= |hits|
    ensures Filtered(key, hits[..i]) <= Filtered(key, hits)
  {
    FilteredAppend(key, hits[..i], hits[i..]);
    assert hits[..i] + hits[i..] == hits;
  }

  /** Every entry comes from a surviving hit. */
  lemma {:induction false} FilteredSound(key: string, hits: seq<Hit>, e: KeyClause)
    requires e in Filtered(key, hits)
    ensures exists j :: 0 <= j < |hits| && Accept(key, hits[j]) && Entry(hits[j]) == e
  {
    var init := hits[..|hits| - 1];
    if e in Filtered(key, init) {
      FilteredSound(key, init, e);
      var j :| 0 <= j < |init| && Accept(key, init[j]) && Entry(init[j]) == e;
      assert hits[j] == init[j];
    } else {
      assert Accept(key, hits[|hits| - 1]);
    }
  }

  /** Every surviving hit gives an entry. */
  lemma {:induction false} FilteredComplete(key: string, hits: seq<Hit>, j: nat)
    requires j < |hits| && Accept(key, hits[j])
    ensures Entry(hits[j]) in Filtered(key, hits)
  {
    if j < |hits| - 1 {
      var init := hits[..|hits| - 1];
      assert init[j] == hits[j];
      FilteredComplete(key, init, j);
    }
  }

  /** The distance rule: a known distance above the ceiling drops the hit, one at or below it does not. */
  lemma DistanceCeiling(key: string, h: Hit)
    requires Unpack(h).1.Some? && Unpack(h).2.Some?
    requires key != "payment" || LooksLikePayment(Unpack(h).1.value)
    ensures Accept(key, h) <==> Unpack(h).2.value <= MaxDist(key)
  {
  }

  /** Two-tuple hits carry no clause id; hits whose text is None are skipped. */
  lemma HitShapes(key: string, h: Hit)
    ensures h.Pair? && Accept(key, h) ==> Entry(h).clauseId == None
    ensures !h.Other? && h.text.None? ==> !Accept(key, h)
  {
  }

  // ---------------------------------------------------------------------
  // Properties of a topic list on the scored path.

  /** The list is never empty and never longer than the cap (`top_k` when it is positive). */
  lemma PickedBounds(key: string, hits: seq<Hit>, topK: int)
    ensures 1 <= |Picked(key, hits, topK)| <= Cap(topK)
    ensures topK >= 1 ==> |Picked(key, hits, topK)| <= topK
  {
  }

  /** With no surviving hit the list is exactly the "Not found" entry. */
  lemma PickedNotFound(key: string, hits: seq<Hit>, topK: int)
    requires forall j :: 0 <= j < |hits| ==> !Accept(key, hits[j])
    ensures Picked(key, hits, topK) == [NotFoundEntry]
  {
    if Filtered(key, hits) != [] {
      FilteredSound(key, hits, Filtered(key, hits)[0]);
    }
  }

  /** Every picked entry (other than "Not found") comes from a hit within the ceiling, and for payment passes the keyword check. */
  lemma PickedEntriesQualify(key: string, hits: seq<Hit>, topK: int, e: KeyClause)
    requires e in Picked(key, hits, topK) && Filtered(key, hits) != []
    ensures exists j :: 0 <= j < |hits| && Accept(key, hits[j]) && Entry(hits[j]) == e
                && (Unpack(hits[j]).2.None? || Unpack(hits[j]).2.value <= MaxDist(key))
    ensures key == "payment" ==> LooksLikePayment(e.clauseText)
  {
    assert e in Filtered(key, hits);
    FilteredSound(key, hits, e);
  }

  /** The picked entries are the first surviving hits, in hit order. */
  lemma PickedKeepsOrder(key: string, hits: seq<Hit>, topK: int)
    requires Filtered(key, hits) != []
    ensures Picked(key, hits, topK) <= Filtered(key, hits)
  {
  }

  /** The result has one entry per topic, in `KEY_TOPICS` order. */
  lemma OneEntryPerTopic(results: seq<(string, seq<KeyClause>)>, r: Retriever, topK: int)
    requires |results| == |KeyTopics|
    requires forall t :: 0 <= t < |KeyTopics| ==>
      results[t] == (KeyTopics[t].0, TopicResult(r, KeyTopics[t].0, KeyTopics[t].1, topK))
    ensures forall t :: 0 <= t < |results| ==> results[t].0 == KeyTopics[t].0
    ensures r.Scored? ==> forall t :: 0 <= t < |results| ==> 1 <= |results[t].1| <= Cap(topK)
  {
    if r.Scored? {
      forall t | 0 <= t < |results|
        ensures 1 <= |results[t].1| <= Cap(topK)
      {
        PickedBounds(KeyTopics[t].0, r.searchWithScores(KeyTopics[t].1, topK * 5), topK);
      }
    }
  }
}
