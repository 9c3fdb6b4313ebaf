/**
 * tools/structured_analyzer.py, lines 24-53: the per-section evidence that
 * `structured_analysis` retrieves and assembles before it calls the
 * language model. The search is a parameter; the model call that follows
 * is not part of this module.
 */
module StructuredAnalyzer {
  import opened Wrappers
  import opened Strs

  /** `SECTIONS`: section key and the query sent to the search. */
  const Sections: seq<(string, string)> := [
    ("parties", "Identify parties (Employer / Employee), roles, and relationship"),
    ("term", "Contract term / duration / start date / probation"),
    ("compensation", "salary CTC compensation wages bonus allowance deduction PF ESI reimbursement"),
    ("penalties", "penalty liquidated damages bond 2 lakhs compensation clause damages section 73 74"),
    ("termination", "Termination rights, notice, severance, penalties"),
    ("confidentiality", "Confidentiality scope, duration, exceptions"),
    ("non_compete", "Non-compete / non-solicit restrictions (scope/duration/geo)"),
    ("ip", "IP assignment, inventions, source code ownership"),
    ("disputes", "Dispute resolution, arbitration, governing law, jurisdiction"),
    ("other_red_flags", "Any other obligations that look risky/unfair")
  ]

  /** `COMP_KEYWORDS`; the rupee sign appears as the three characters of its mis-decoded UTF-8 bytes, as in the source. */
  const CompKeywords: seq<string> := [
    "salary", "ctc", "remuneration", "wage", "stipend", "pay", "payable",
    "allowance", "bonus", "deduction", "payslip", "inr", "â‚¹", "rs", "rupees",
    "pf", "esi", "tds", "hra", "lta", "reimbursement"
  ]

  const Compensation: string := "compensation"
  const NotFound: string := "Not found"
  const SnippetLimit: nat := 1200
  const DefaultKPerSection: int := 5

  /** `looks_like_comp(txt)`. */
  predicate LooksLikeComp(txt: string) {
    ContainsAny(Lower(txt), CompKeywords)
  }

  /**
   * A search hit: a 2-tuple `(cid, txt)`, with `cid` as the f-string renders it,
   * or any other value, as `str(h)` renders it.
   */
  datatype SearchHit = IdText(cid: string, text: string) | Bare(repr: string)

  // The tags are split so that the verifier sees their first character.
  const ClauseTag: string := "[" + "Clause "
  const UnknownTag: string := "[" + "Clause ?] "

  /** The block one hit contributes to a section, if any. */
  function Block(key: string, h: SearchHit): (b: Option<string>)
    ensures b.Some? <==> (h.IdText? && (key != Compensation || LooksLikeComp(h.text))) || (h.Bare? && key != Compensation)
    ensures h.IdText? && b.Some? ==> b.value == ClauseTag + h.cid + "] " + Take(h.text, SnippetLimit)
    ensures h.Bare? && b.Some? ==> b.value == UnknownTag + Take(h.repr, SnippetLimit)
  {
    match h
    case IdText(cid, txt) =>
      if key == Compensation && !LooksLikeComp(txt) then None
      else Some(ClauseTag + cid + "] " + Take(txt, SnippetLimit))
    case Bare(repr) =>
      if key != Compensation then Some(UnknownTag + Take(repr, SnippetLimit)) else None
  }

  /** The blocks of a section, in hit order. */
  function Blocks(key: string, hits: seq<SearchHit>): (bs: seq<string>)
    ensures |bs| <= |hits|
  {
    if hits == [] then []
    else
      var b := Block(key, hits[|hits| - 1]);
      Blocks(key, hits[..|hits| - 1]) + (if b.Some? then [b.value] else [])
  }

  /** The text `retrieved[key]` receives. */
  function SectionEvidence(key: string, hits: seq<SearchHit>): string {
    var bs := Blocks(key, hits);
    if bs == [] then NotFound else Join(bs, "\n\n")
  }

  /** The inner loop over the hits of one section. */
  method SectionBlocks(key: string, hits: seq<SearchHit>) returns (blocks: seq<string>)
    ensures blocks == Blocks(key, hits)
  {
    blocks := [];
    for i := 0 to |hits|
      invariant blocks == Blocks(key, hits[..i])
    {
      assert hits[..i + 1][..i] == hits[..i];
      match hits[i] {
        case IdText(cid, txt) =>
          if key == Compensation && !LooksLikeComp(txt) {
            continue;
          }
          blocks := blocks + [ClauseTag + cid + "] " + Take(txt, SnippetLimit)];
        case Bare(repr) =>
          if key != Compensation {
            blocks := blocks + [UnknownTag + Take(repr, SnippetLimit)];
          }
      }
    }
    assert hits[..|hits|] == hits;
  }

  /** The `retrieved` dict, in `SECTIONS` order, for the search `search(query, k)`. */
  method BuildRetrieved(search: (string, int) -> seq<SearchHit>, kPerSection: int)
    returns (retrieved: seq<(string, string)>)
    ensures |retrieved| == |Sections|
    ensures forall s :: 0 <= s < |Sections| ==>
      retrieved[s] == (Sections[s].0, SectionEvidence(Sections[s].0, search(Sections[s].1, kPerSection)))
  {
    retrieved := [];
    for s := 0 to |Sections|
      invariant |retrieved| == s
      invariant forall u :: 0 <= u < s ==>
        retrieved[u] == (Sections[u].0, SectionEvidence(Sections[u].0, search(Sections[u].1, kPerSection)))
    {
      var (key, query) := Sections[s];
      var hits := search(query, kPerSection);
      var blocks := SectionBlocks(key, hits);
      var text;
      if key == Compensation && blocks == [] {
        text := NotFound;
      } else {
        text := if blocks != [] then Join(blocks, "\n\n") else NotFound;
      }
      retrieved := retrieved + [(key, text)];
    }
  }

  // ---------------------------------------------------------------------
  // Properties.

  /** Block assembly distributes over concatenation of hit lists: blocks keep hit order. */
  lemma {:induction false} BlocksAppend(key: string, a: seq<SearchHit>, b: seq<SearchHit>)
    ensures Blocks(key, a + b) == Blocks(key, a) + Blocks(key, b)
  {
    if b == [] {
      assert a + b == a;
    } else {
      assert (a + b)[..|a + b| - 1] == a + b[..|b| - 1];
      BlocksAppend(key, a, b[..|b| - 1]);
    }
  }

  /** Every block is the rendering of some hit of the section. */
  lemma {:induction false} BlocksSound(key: string, hits: seq<SearchHit>, blk: string)
    requires blk in Blocks(key, hits)
    ensures exists j :: 0 <= j < |hits| && Block(key, hits[j]) == Some(blk)
  {
    var init := hits[..|hits| - 1];
    if blk in Blocks(key, init) {
      BlocksSound(key, init, blk);
      var j :| 0 <= j < |init| && Block(key, init[j]) == Some(blk);
      assert hits[j] == init[j];
    }
  }

  /**
   * Outside "compensation" every hit yields exactly one block (bare values as
   * "[Clause ?] ..."), so the blocks are the hits' renderings one for one.
   */
  lemma {:induction false} NonCompensationKeepsEveryHit(key: string, hits: seq<SearchHit>)
    requires key != Compensation
    ensures |Blocks(key, hits)| == |hits|
    ensures forall j :: 0 <= j < |hits| ==> Block(key, hits[j]) == Some(Blocks(key, hits)[j])
  {
    if hits != [] {
      var init := hits[..|hits| - 1];
      NonCompensationKeepsEveryHit(key, init);
      forall j | 0 <= j < |hits|
        ensures Block(key, hits[j]) == Some(Blocks(key, hits)[j])
      {
        if j < |init| {
          assert hits[j] == init[j];
        }
      }
    }
  }

  /** Every compensation block quotes a tuple hit that passes `looks_like_comp`; bare hits never appear there. */
  lemma CompensationBlocksQualify(hits: seq<SearchHit>, blk: string)
    requires blk in Blocks(Compensation, hits)
    ensures exists j ::
      0 <= j < |hits| && hits[j].IdText? && LooksLikeComp(hits[j].text)
      && blk == ClauseTag + hits[j].cid + "] " + Take(hits[j].text, SnippetLimit)
  {
    BlocksSound(Compensation, hits, blk);
  }

  /** A block quotes at most 1200 characters of its clause, and quotes them from the start. */
  lemma BlockQuotesPrefix(key: string, h: SearchHit)
    requires Block(key, h).Some?
    ensures var quoted := if h.IdText? then h.text else h.repr;
      exists n :: 0 <= n <= SnippetLimit && n <= |quoted| && Block(key, h).value == (if h.IdText? then ClauseTag + h.cid + "] " else UnknownTag) + quoted[..n]
  {
    var quoted := if h.IdText? then h.text else h.repr;
    var n := |Take(quoted, SnippetLimit)|;
    assert Take(quoted, SnippetLimit) == quoted[..n];
  }

  lemma {:induction false} JoinStartsWithFirst(parts: seq<string>, sep: string)
    requires |parts| >= 1
    ensures parts[0] <= Join(parts, sep)
  {
  }

  /** A section reads "Not found" exactly when none of its hits produced a block. */
  lemma NotFoundIffNoBlocks(key: string, hits: seq<SearchHit>)
    ensures SectionEvidence(key, hits) == NotFound <==> Blocks(key, hits) == []
  {
    var bs := Blocks(key, hits);
    if bs != [] {
      JoinStartsWithFirst(bs, "\n\n");
      BlocksSound(key, hits, bs[0]);
      assert bs[0][0] == '[';
      assert NotFound[0] == 'N';
    }
  }
}
