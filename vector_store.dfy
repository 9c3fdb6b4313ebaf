/**
 * rag/vector_store.py: the list of texts kept beside the similarity index,
 * one text per stored vector, and the mapping from the positions the index
 * returns back to texts.
 *
 * The sentence encoder is the parameter `embed` (one vector per text) and the
 * FAISS search is the parameter `knn`, which returns a list of positions;
 * nothing else is assumed about either.
 */
module VectorStore {
  import opened Wrappers

  type Vector = seq<real>

  /** The `IndexError` a negative position beyond the start of `texts` raises. */
  const IndexError: string := "IndexError: list index out of range"

  /** Python `xs[i]` for a position below `len(xs)`: negative positions count from the end. */
  function PyIndex(texts: seq<string>, i: int): (r: Result<string, string>)
    requires i < |texts|
    ensures r.Ok? <==> -|texts| <= i
    ensures r.Ok? && i >= 0 ==> r.value == texts[i]
    ensures r.Ok? && i < 0 ==> r.value == texts[|texts| + i]
  {
    if 0 <= i then Ok(texts[i])
    else if -|texts| <= i then Ok(texts[|texts| + i])
    else Err(IndexError)
  }

  /** `[texts[i] for i in positions if i < len(texts)]`: the first failing lookup raises. */
  function PickTexts(texts: seq<string>, positions: seq<int>): (r: Result<seq<string>, string>)
    ensures r.Ok? ==> |r.value| <= |positions|
    ensures r.Ok? ==> forall t :: t in r.value ==> t in texts
  {
    if positions == [] then Ok([])
    else
      var init := positions[..|positions| - 1];
      var i := positions[|positions| - 1];
      match PickTexts(texts, init)
      case Err(e) => Err(e)
      case Ok(prev) =>
        if i >= |texts| then Ok(prev)
        else
          match PyIndex(texts, i)
          case Err(e) => Err(e)
          case Ok(t) => Ok(prev + [t])
  }

  function EmbedAll(embed: string -> Vector, texts: seq<string>): (vs: seq<Vector>)
    ensures |vs| == |texts|
    ensures forall j :: 0 <= j < |texts| ==> vs[j] == embed(texts[j])
  {
    if texts == [] then [] else [embed(texts[0])] + EmbedAll(embed, texts[1..])
  }

  class VectorStore {
    /** The vectors held by the index, in insertion order. */
    var index: seq<Vector>
    var texts: seq<string>

    /** The side table stays parallel to the index. */
    predicate Valid()
      reads this
    {
      |index| == |texts|
    }

    constructor()
      ensures Valid() && index == [] && texts == []
    {
      index := [];
      texts := [];
    }

    /** `add(texts)`: encode, add the vectors to the index, extend the side table. */
    method Add(embed: string -> Vector, newTexts: seq<string>)
      requires Valid()
      modifies this
      ensures Valid()
      ensures texts == old(texts) + newTexts
      ensures index == old(index) + EmbedAll(embed, newTexts)
    {
      var embeddings := EmbedAll(embed, newTexts);
      index := index + embeddings;
      texts := texts + newTexts;
    }

    /** `search(query, k)`: the texts at the positions the index returns, dropping positions past the end. */
    method Search(embed: string -> Vector, knn: (seq<Vector>, Vector, int) -> seq<int>, query: string, k: int)
      returns (r: Result<seq<string>, string>)
      ensures r == PickTexts(texts, knn(index, embed(query), k))
    {
      var positions := knn(index, embed(query), k);
      r := PickTexts(texts, positions);
    }
  }

  // ---------------------------------------------------------------------
  // Properties of the position lookup.

  lemma PickTextsSnoc(texts: seq<string>, positions: seq<int>, i: int)
    ensures PickTexts(texts, positions + [i]) ==
      match PickTexts(texts, positions)
      case Err(e) => Err(e)
      case Ok(prev) =>
        if i >= |texts| then Ok(prev)
        else match PyIndex(texts, i) case Err(e) => Err(e) case Ok(t) => Ok(prev + [t])
  {
    assert (positions + [i])[..|positions|] == positions;
  }

  /** With positions inside the table, the result is exactly the texts at those positions, in the index's order. */
  lemma {:induction false} PickInRange(texts: seq<string>, positions: seq<int>)
    requires forall j :: 0 <= j < |positions| ==> 0 <= positions[j] < |texts|
    ensures PickTexts(texts, positions).Ok?
    ensures |PickTexts(texts, positions).value| == |positions|
    ensures forall j :: 0 <= j < |positions| ==> PickTexts(texts, positions).value[j] == texts[positions[j]]
  {
    if positions != [] {
      PickInRange(texts, positions[..|positions| - 1]);
    }
  }

  /** Positions at or past the end of the table are dropped without a trace. */
  lemma {:induction false} PastTheEndDropped(texts: seq<string>, positions: seq<int>, tail: seq<int>)
    requires forall j :: 0 <= j < |tail| ==> tail[j] >= |texts|
    ensures PickTexts(texts, positions + tail) == PickTexts(texts, positions)
  {
    if tail != [] {
      var init := tail[..|tail| - 1];
      assert positions + tail == (positions + init) + [tail[|tail| - 1]];
      PickTextsSnoc(texts, positions + init, tail[|tail| - 1]);
      PastTheEndDropped(texts, positions, init);
    } else {
      assert positions + tail == positions;
    }
  }

  /**
   * The `-1` padding FAISS returns when fewer than `k` vectors exist passes
   * the `i < len(texts)` filter: on a non-empty table it yields the last text,
   * on an empty one the lookup raises.
   */
  lemma PaddingYieldsLastText(texts: seq<string>, positions: seq<int>)
    requires PickTexts(texts, positions).Ok?
    ensures texts != [] ==> PickTexts(texts, positions + [-1]) == Ok(PickTexts(texts, positions).value + [texts[|texts| - 1]])
    ensures texts == [] ==> PickTexts(texts, positions + [-1]) == Err(IndexError)
  {
    PickTextsSnoc(texts, positions, -1);
  }
}
