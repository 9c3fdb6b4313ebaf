/**
 * rag/contract_store.py: an append-only list of clause records with a
 * filter by clause type.
 */
module ContractStore {
  import opened Wrappers
  import opened Json

  /**
   * One record of `self.clauses`, a dict with keys "text", "type" and
   * possibly "metadata" and "clause_id". A missing key is `None`. The store
   * itself never writes a "clause_id"; other readers of these records look it up.
   */
  datatype Record = Record(text: string, clauseType: string, metadata: Option<Json>, clauseId: Option<int>)

  /** `[c for c in clauses if c["type"] == clause_type]`. */
  function OfType(clauses: seq<Record>, clauseType: string): (r: seq<Record>)
    ensures |r| <= |clauses|
    ensures forall x :: x in r <==> x in clauses && x.clauseType == clauseType
  {
    if clauses == [] then []
    else
      var init := clauses[..|clauses| - 1];
      var last := clauses[|clauses| - 1];
      assert forall x :: x in clauses <==> x in init || x == last;
      OfType(init, clauseType) + (if last.clauseType == clauseType then [last] else [])
  }

  /** The batch's records: texts and types paired by position, up to the shorter list (`zip`). */
  function Zipped(texts: seq<string>, types: seq<string>): (r: seq<Record>)
    ensures |r| == if |texts| < |types| then |texts| else |types|
    ensures forall i :: 0 <= i < |r| ==> r[i] == Record(texts[i], types[i], None, None)
  {
    if texts == [] || types == [] then []
    else [Record(texts[0], types[0], None, None)] + Zipped(texts[1..], types[1..])
  }

  class ContractStore {
    var clauses: seq<Record>

    constructor()
      ensures clauses == []
    {
      clauses := [];
    }

    /** `add_clause(clause_text, clause_type, metadata=None)`; `metadata or {}` replaces a falsy value by an empty dict. */
    method AddClause(text: string, clauseType: string, metadata: Json)
      modifies this
      ensures clauses == old(clauses) + [Record(text, clauseType, Some(if PyTruthy(metadata) then metadata else Obj([])), None)]
    {
      var md := if PyTruthy(metadata) then metadata else Obj([]);
      clauses := clauses + [Record(text, clauseType, Some(md), None)];
    }

    /** `add_clauses_batch(clauses, clause_types)`: the records carry no "metadata" key. */
    method AddClausesBatch(texts: seq<string>, types: seq<string>)
      modifies this
      ensures clauses == old(clauses) + Zipped(texts, types)
    {
      var n := if |texts| < |types| then |texts| else |types|;
      ghost var before := clauses;
      for i := 0 to n
        invariant clauses == before + Zipped(texts[..i], types[..i])
      {
        ZippedSnoc(texts[..i], types[..i], texts[i], types[i]);
        assert texts[..i + 1] == texts[..i] + [texts[i]];
        assert types[..i + 1] == types[..i] + [types[i]];
        clauses := clauses + [Record(texts[i], types[i], None, None)];
      }
      ZippedTruncate(texts, types, n);
    }

    /** `get_by_type(clause_type)`: reads the store and changes nothing. */
    function GetByType(clauseType: string): (r: seq<Record>)
      reads this
      ensures forall x :: x in r <==> x in clauses && x.clauseType == clauseType
    {
      OfType(clauses, clauseType)
    }
  }

  lemma ZippedSnoc(texts: seq<string>, types: seq<string>, t: string, ty: string)
    requires |texts| == |types|
    ensures Zipped(texts + [t], types + [ty]) == Zipped(texts, types) + [Record(t, ty, None, None)]
  {
  }

  lemma ZippedTruncate(texts: seq<string>, types: seq<string>, n: nat)
    requires n == if |texts| < |types| then |texts| else |types|
    ensures Zipped(texts[..n], types[..n]) == Zipped(texts, types)
  {
  }

  // ---------------------------------------------------------------------
  // Properties.

  /** The type filter distributes over appending: it keeps insertion order. */
  lemma {:induction false} OfTypeAppend(a: seq<Record>, b: seq<Record>, clauseType: string)
    ensures OfType(a + b, clauseType) == OfType(a, clauseType) + OfType(b, clauseType)
  {
    if b == [] {
      assert a + b == a;
    } else {
      assert (a + b)[..|a + b| - 1] == a + b[..|b| - 1];
      OfTypeAppend(a, b[..|b| - 1], clauseType);
    }
  }

  /** Adding a record changes the filter only for the added record's own type, and only by that record. */
  lemma AddedRecordShowsUnderItsType(clauses: seq<Record>, r: Record, clauseType: string)
    ensures OfType(clauses + [r], clauseType)
         == OfType(clauses, clauseType) + (if r.clauseType == clauseType then [r] else [])
  {
    assert (clauses + [r])[..|clauses|] == clauses;
  }

  /** No record the store writes carries a "clause_id". */
  lemma StoreRecordsHaveNoClauseId(texts: seq<string>, types: seq<string>)
    ensures forall r :: r in Zipped(texts, types) ==> r.clauseId.None? && r.metadata.None?
  {
  }
}
