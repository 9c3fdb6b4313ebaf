/**
 * The browser's list of analysed contracts ("sessions") and the id of the
 * active one, both kept in the browser's key-value storage. The list is
 * stored as JSON text; `parse` (`JSON.parse`, `None` when it throws) and
 * `stringify` (`JSON.stringify`) are parameters of the store, and `num`
 * renders a number the way `String(n)` does.
 */
module Storage {
  import opened Wrappers
  import opened Json
  import opened Strs

  const SessionsKey: string := "contract_analyzer_sessions_v1"
  const ActiveKey: string := "contract_analyzer_active_contract_id_v1"

  /** `2^e` for any whole exponent. */
  function Pow2(e: int): (p: real)
    ensures p > 0.0
    decreases if e < 0 then -e else e
  {
    if e == 0 then 1.0 else if e > 0 then 2.0 * Pow2(e - 1) else Pow2(e + 1) / 2.0
  }

  function Dyadic(m: int, e: int): real {
    m as real * Pow2(e)
  }

  /**
   * A finite IEEE-754 double: a whole number below 2^53 in size times a
   * power of two between 2^-1074 and 2^971. JavaScript numbers other than
   * NaN and the infinities are exactly these.
   */
  ghost predicate IsDouble(r: real) {
    r == 0.0 || exists m: int, e: int :: -9007199254740992 < m < 9007199254740992 && -1074 <= e <= 971 && r == Dyadic(m, e)
  }

  /** A JavaScript number that is neither NaN nor infinite. */
  type Double = r: real | IsDouble(r) witness 0.0

  /** A session as the upload view records it. */
  datatype SessionItem = SessionItem(contractId: string, filename: string, numClauses: Option<Double>, createdAt: Double)

  /** The item as a JSON object (an absent `num_clauses` is left out, as `JSON.stringify` drops `undefined`). */
  function ItemJson(item: SessionItem): Json {
    Obj([("contract_id", Str(item.contractId)), ("filename", Str(item.filename))]
      + (if item.numClauses.Some? then [("num_clauses", Num(item.numClauses.value))] else [])
      + [("createdAt", Num(item.createdAt))])
  }

  /** `s.contract_id === id` for a stored entry `s` that is not null. */
  predicate HasId(s: Json, id: string) {
    Get(s, "contract_id") == Some(Str(id))
  }

  // ---------------------------------------------------------------- loading and saving

  /** `loadSessions` on the stored text: the parsed array, or [] when the text is missing or empty, not JSON, or not an array. */
  function Loaded(raw: Option<string>, parse: string -> Option<Json>): (sessions: seq<Json>)
    ensures raw.None? || raw == Some("") ==> sessions == []
    ensures raw.Some? && raw.value != "" && parse(raw.value).Some? && parse(raw.value).value.Arr? ==>
      sessions == parse(raw.value).value.items
    ensures sessions != [] ==> raw.Some? && parse(raw.value) == Some(Arr(sessions))
  {
    if raw.None? || raw.value == "" then []
    else
      match parse(raw.value)
      case None => []
      case Some(v) => if v.Arr? then v.items else []
  }

  /**
   * A key JavaScript treats as an array index: the canonical decimal form of
   * a whole number below 2^32 - 1. An object lists such keys first, in
   * ascending order, whatever order they were written in.
   */
  predicate IsIndexKey(k: string) {
    0 < |k| <= 10 && (forall i :: 0 <= i < |k| ==> IsDigit(k[i])) && (k == "0" || k[0] != '0')
    && DecimalValue(k) <= 4294967294
  }

  /** The value of a string of decimal digits. */
  function DecimalValue(k: string): nat {
    if k == [] then 0
    else DecimalValue(k[..|k| - 1]) * 10 + (if IsDigit(k[|k| - 1]) then k[|k| - 1] as int - '0' as int else 0)
  }

  /**
   * Keys as a JavaScript object can hold them: no key twice, and no index
   * key after a non-index key or after a larger index key.
   */
  predicate KeysInJsOrder(fields: seq<(string, Json)>) {
    forall i, k :: 0 <= i < k < |fields| ==>
      fields[i].0 != fields[k].0
      && (IsIndexKey(fields[k].0) ==> IsIndexKey(fields[i].0) && DecimalValue(fields[i].0) < DecimalValue(fields[k].0))
  }

  /**
   * A value `JSON.stringify` writes faithfully: no NaN anywhere (it would be
   * written as `null`), every number a double, and every object's keys as a
   * JavaScript object holds them.
   */
  ghost predicate Writable(j: Json) {
    match j
    case NaN => false
    case Num(n) => IsDouble(n)
    case Arr(items) => forall i :: 0 <= i < |items| ==> Writable(items[i])
    case Obj(fields) => KeysInJsOrder(fields) && FieldsWritable(j, |fields|)
    case _ => true
  }

  ghost predicate FieldsWritable(j: Json, n: nat)
    requires j.Obj? && n <= |j.fields|
    decreases j, n
  {
    n == 0 || (FieldsWritable(j, n - 1) && Writable(j.fields[n - 1].1))
  }

  /** A list `JSON.stringify` writes faithfully. */
  ghost predicate Storable(xs: seq<Json>) {
    forall i :: 0 <= i < |xs| ==> Writable(xs[i])
  }

  /**
   * What the store assumes of the codec: stringifying an array of writable
   * values gives non-empty text that parses back to the array, and what
   * parsing yields is writable (no NaN, doubles only, each key once, index
   * keys first).
   */
  ghost predicate CodecLaw(parse: string -> Option<Json>, stringify: Json -> string) {
    (forall xs: seq<Json> :: Storable(xs) ==> stringify(Arr(xs)) != "" && parse(stringify(Arr(xs))) == Some(Arr(xs)))
    && (forall s :: parse(s).Some? ==> Writable(parse(s).value))
  }

  /** A session item is writable: its numbers are doubles, and its keys are distinct names that are not indices. */
  lemma ItemWritable(item: SessionItem)
    ensures Writable(ItemJson(item))
  {
    var j := ItemJson(item);
    var n := |j.fields|;
    forall i | 0 <= i < n
      ensures !IsIndexKey(j.fields[i].0)
    {
      assert !IsDigit(j.fields[i].0[0]);
    }
    assert KeysInJsOrder(j.fields);
    assert FieldsWritable(j, n - 1) by {
      forall k | 0 <= k <= n - 1
        ensures FieldsWritable(j, k)
      {
        FieldsWritableUpTo(j, k);
      }
    }
  }

  lemma {:induction false} FieldsWritableUpTo(j: Json, k: nat)
    requires j.Obj? && k <= |j.fields|
    requires forall i :: 0 <= i < k ==> j.fields[i].1.Str? || (j.fields[i].1.Num? && IsDouble(j.fields[i].1.n))
    ensures FieldsWritable(j, k)
    decreases k
  {
    if k > 0 {
      FieldsWritableUpTo(j, k - 1);
    }
  }

  /** `JSON.parse` keeps one binding per key, so an object with a repeated key is never asked to round-trip. */
  lemma RepeatedKeyNotWritable(key: string, a: Json, b: Json)
    ensures !Writable(Obj([(key, a), (key, b)]))
  {
    var fields := [(key, a), (key, b)];
    assert fields[0].0 == fields[1].0;
  }

  /** JavaScript lists index keys first, so an index key after a name is never asked to round-trip. */
  lemma LateIndexKeyNotWritable(a: Json, b: Json)
    ensures !Writable(Obj([("b", a), ("1", b)]))
  {
    var fields := [("b", a), ("1", b)];
    assert DecimalValue("1") == 1 by {
      assert "1"[..0] == [];
    }
    assert IsIndexKey(fields[1].0) && !IsIndexKey(fields[0].0);
  }

  // ---------------------------------------------------------------- finding, replacing, removing

  /** How `findIndex` ends: at a match, without one, or by throwing on a null entry. */
  datatype Search = Index(i: nat) | NotFound | NullEntry

  /** `sessions.findIndex((s) => s.contract_id === id)`, from position `from`. */
  function FindSession(sessions: seq<Json>, id: string, from: nat): (r: Search)
    requires from <= |sessions|
    ensures r.Index? ==> (from <= r.i < |sessions| && HasId(sessions[r.i], id)
      && forall j :: from <= j < r.i ==> sessions[j] != Null && !HasId(sessions[j], id))
    ensures r.NotFound? <==> forall j :: from <= j < |sessions| ==> sessions[j] != Null && !HasId(sessions[j], id)
    ensures r.NullEntry? ==>
      exists j :: from <= j < |sessions| && sessions[j] == Null && (forall k :: from <= k < j ==> !HasId(sessions[k], id))
    decreases |sessions| - from
  {
    if from == |sessions| then NotFound
    else if sessions[from] == Null then NullEntry
    else if HasId(sessions[from], id) then Index(from)
    else FindSession(sessions, id, from + 1)
  }

  /** The list `upsertSession` saves: the first entry with the item's id replaced, or the item put in front. */
  function Upserted(sessions: seq<Json>, item: SessionItem): (r: seq<Json>)
    requires !FindSession(sessions, item.contractId, 0).NullEntry?
  {
    match FindSession(sessions, item.contractId, 0)
    case Index(i) => sessions[i := ItemJson(item)]
    case NotFound => [ItemJson(item)] + sessions
  }

  /** `sessions.filter((s) => s.contract_id !== id)` on a list without null entries. */
  function Remaining(sessions: seq<Json>, id: string): (r: seq<Json>)
    requires forall j :: 0 <= j < |sessions| ==> sessions[j] != Null
    ensures |r| <= |sessions|
    ensures forall j :: 0 <= j < |r| ==> r[j] != Null && !HasId(r[j], id)
    ensures forall x :: x in r <==> x in sessions && !HasId(x, id)
  {
    if |sessions| == 0 then []
    else
      var rest := Remaining(sessions[..|sessions| - 1], id);
      var last := sessions[|sessions| - 1];
      assert forall x :: x in sessions <==> x in sessions[..|sessions| - 1] || x == last;
      if HasId(last, id) then rest else rest + [last]
  }

  /** The id the active marker falls back to: the first remaining session's `contract_id ?? ""`, as stored text. */
  function FirstId(sessions: seq<Json>, num: real -> string): string {
    if sessions == [] then ""
    else
      var cid := Get(sessions[0], "contract_id");
      if Nullish(cid) then "" else JsString(cid, num)
  }

  /** `getActiveContractId` on the stored text: the text, or "" when it is missing or empty. */
  function ActiveOf(raw: Option<string>): (id: string)
    ensures raw.Some? ==> id == raw.value
  {
    if raw.None? then "" else raw.value
  }

  function Read(store: map<string, string>, key: string): Option<string> {
    if key in store then Some(store[key]) else None
  }

  // ---------------------------------------------------------------- the store

  class SessionStore {
    /** The browser's key-value storage. */
    var store: map<string, string>
    const parse: string -> Option<Json>
    const stringify: Json -> string
    const num: real -> string

    constructor(initial: map<string, string>, parse: string -> Option<Json>, stringify: Json -> string, num: real -> string)
      ensures store == initial && this.parse == parse && this.stringify == stringify && this.num == num
    {
      store := initial;
      this.parse := parse;
      this.stringify := stringify;
      this.num := num;
    }

    /** The session list as `loadSessions` reads it now. */
    function Sessions(): seq<Json>
      reads this
    {
      Loaded(Read(store, SessionsKey), parse)
    }

    /** The active id as `getActiveContractId` reads it now. */
    function Active(): string
      reads this
    {
      ActiveOf(Read(store, ActiveKey))
    }

    /** `loadSessions`. */
    method LoadSessions() returns (sessions: seq<Json>)
      ensures sessions == Sessions()
    {
      var raw := Read(store, SessionsKey);
      if raw.None? || raw.value == "" {
        return [];
      }
      var v := parse(raw.value);
      if v.Some? && v.value.Arr? {
        sessions := v.value.items;
      } else {
        sessions := [];
      }
    }

    /** `saveSessions`: the list is written as JSON text; nothing else changes. */
    method SaveSessions(sessions: seq<Json>)
      modifies this
      ensures store == old(store)[SessionsKey := stringify(Arr(sessions))]
    {
      store := store[SessionsKey := stringify(Arr(sessions))];
    }

    /** `getActiveContractId`. */
    method GetActiveContractId() returns (id: string)
      ensures id == Active()
    {
      var raw := Read(store, ActiveKey);
      id := if raw.None? then "" else raw.value;
    }

    /** `setActiveContractId`: afterwards the active id reads back as `id`, and the session list is untouched. */
    method SetActiveContractId(id: string)
      modifies this
      ensures store == old(store)[ActiveKey := id]
      ensures Active() == id && Sessions() == old(Sessions())
    {
      store := store[ActiveKey := id];
    }

    /**
     * `upsertSession`. `ok` is false when the search threw on a null entry,
     * and then nothing is written.
     */
    method UpsertSession(item: SessionItem) returns (ok: bool)
      modifies this
      ensures ok <==> !FindSession(old(Sessions()), item.contractId, 0).NullEntry?
      ensures !ok ==> store == old(store)
      ensures ok ==> store == old(store)[SessionsKey := stringify(Arr(Upserted(old(Sessions()), item)))]
      ensures ok && CodecLaw(parse, stringify) ==> Sessions() == Upserted(old(Sessions()), item)
      ensures Active() == old(Active())
    {
      var sessions := LoadSessions();
      var found := FindSession(sessions, item.contractId, 0);
      if found.NullEntry? {
        return false;
      }
      if found.Index? {
        sessions := sessions[found.i := ItemJson(item)];
      } else {
        sessions := [ItemJson(item)] + sessions;
      }
      SaveSessions(sessions);
      ok := true;
      KeysDistinct();
      if CodecLaw(parse, stringify) {
        LoadedStorable(Read(old(store), SessionsKey), parse, stringify);
        UpsertedStorable(old(Sessions()), item);
        SaveThenLoad(old(store), sessions, parse, stringify);
      }
    }

    /**
     * `deleteSession`. `ok` is false when the filter threw on a null entry,
     * and then nothing is written. Otherwise the remaining sessions are
     * saved, and an active id equal to the deleted one moves to the first
     * remaining session's id, or "".
     */
    method DeleteSession(id: string) returns (ok: bool)
      modifies this
      ensures ok <==> forall j :: 0 <= j < |old(Sessions())| ==> old(Sessions())[j] != Null
      ensures !ok ==> store == old(store)
      ensures ok ==>
        var saved := old(store)[SessionsKey := stringify(Arr(Remaining(old(Sessions()), id)))];
        store == if old(Active()) == id then saved[ActiveKey := FirstId(Remaining(old(Sessions()), id), num)] else saved
      ensures ok ==> Active() == if old(Active()) == id then FirstId(Remaining(old(Sessions()), id), num) else old(Active())
      ensures ok && CodecLaw(parse, stringify) ==> Sessions() == Remaining(old(Sessions()), id)
    {
      var sessions := LoadSessions();
      if exists j :: 0 <= j < |sessions| && sessions[j] == Null {
        return false;
      }
      var rest := Remaining(sessions, id);
      SaveSessions(rest);
      KeysDistinct();
      if CodecLaw(parse, stringify) {
        LoadedStorable(Read(old(store), SessionsKey), parse, stringify);
        RemainingStorable(sessions, id);
        SaveThenLoad(old(store), rest, parse, stringify);
      }
      var active := GetActiveContractId();
      if active == id {
        SetActiveContractId(FirstId(rest, num));
      }
      ok := true;
    }
  }

  // ---------------------------------------------------------------- properties

  lemma KeysDistinct()
    ensures SessionsKey != ActiveKey
  {
    assert |SessionsKey| != |ActiveKey|;
  }

  /** Whatever `loadSessions` returns can be written back faithfully. */
  lemma LoadedStorable(raw: Option<string>, parse: string -> Option<Json>, stringify: Json -> string)
    requires CodecLaw(parse, stringify)
    ensures Storable(Loaded(raw, parse))
  {
    var xs := Loaded(raw, parse);
    if xs != [] {
      assert Writable(parse(raw.value).value);
    }
  }

  /** Saving a list and loading again gives the list back. */
  lemma SaveThenLoad(store: map<string, string>, xs: seq<Json>, parse: string -> Option<Json>, stringify: Json -> string)
    requires CodecLaw(parse, stringify) && Storable(xs)
    ensures Loaded(Read(store[SessionsKey := stringify(Arr(xs))], SessionsKey), parse) == xs
  {
    assert parse(stringify(Arr(xs))) == Some(Arr(xs));
  }

  lemma UpsertedStorable(sessions: seq<Json>, item: SessionItem)
    requires Storable(sessions) && !FindSession(sessions, item.contractId, 0).NullEntry?
    ensures Storable(Upserted(sessions, item))
  {
    ItemWritable(item);
  }

  lemma RemainingStorable(sessions: seq<Json>, id: string)
    requires Storable(sessions) && forall j :: 0 <= j < |sessions| ==> sessions[j] != Null
    ensures Storable(Remaining(sessions, id))
  {
    var r := Remaining(sessions, id);
    forall i | 0 <= i < |r|
      ensures Writable(r[i])
    {
      assert r[i] in sessions;
    }
  }

  /** An id already listed: its first entry is replaced in place; the length and every other entry stay. */
  lemma UpsertReplacesFirst(sessions: seq<Json>, item: SessionItem, i: nat)
    requires i < |sessions| && HasId(sessions[i], item.contractId)
    requires forall j :: 0 <= j < i ==> sessions[j] != Null && !HasId(sessions[j], item.contractId)
    ensures !FindSession(sessions, item.contractId, 0).NullEntry?
    ensures var r := Upserted(sessions, item);
      |r| == |sessions| && r[i] == ItemJson(item) && forall j :: 0 <= j < |r| && j != i ==> r[j] == sessions[j]
  {
    var f := FindSession(sessions, item.contractId, 0);
    assert f.Index? && f.i == i;
  }

  /** A new id goes in front and the list grows by one. */
  lemma UpsertPrepends(sessions: seq<Json>, item: SessionItem)
    requires forall j :: 0 <= j < |sessions| ==> sessions[j] != Null && !HasId(sessions[j], item.contractId)
    ensures !FindSession(sessions, item.contractId, 0).NullEntry?
    ensures Upserted(sessions, item) == [ItemJson(item)] + sessions
    ensures |Upserted(sessions, item)| == |sessions| + 1
  {
  }

  /** After an upsert the item is listed, exactly once when its id was listed at most once. */
  lemma UpsertLists(sessions: seq<Json>, item: SessionItem)
    requires !FindSession(sessions, item.contractId, 0).NullEntry?
    ensures ItemJson(item) in Upserted(sessions, item)
  {
    var r := Upserted(sessions, item);
    match FindSession(sessions, item.contractId, 0)
    case Index(i) => assert r[i] == ItemJson(item);
    case NotFound => assert r[0] == ItemJson(item);
  }

  /** Deleting keeps the other sessions in their order: the survivors of a list's front come first. */
  lemma {:induction false} RemainingAppend(a: seq<Json>, b: seq<Json>, id: string)
    requires forall j :: 0 <= j < |a + b| ==> (a + b)[j] != Null
    ensures forall j :: 0 <= j < |a| ==> a[j] != Null
    ensures forall j :: 0 <= j < |b| ==> b[j] != Null
    ensures Remaining(a + b, id) == Remaining(a, id) + Remaining(b, id)
    decreases |b|
  {
    assert forall j :: 0 <= j < |a| ==> a[j] == (a + b)[j];
    assert forall j :: 0 <= j < |b| ==> b[j] == (a + b)[|a| + j];
    if |b| > 0 {
      var b0 := b[..|b| - 1];
      assert (a + b)[..|a + b| - 1] == a + b0;
      assert forall j :: 0 <= j < |a + b0| ==> (a + b0)[j] == (a + b)[j];
      RemainingAppend(a, b0, id);
      assert b[..|b| - 1] == b0;
    } else {
      assert a + b == a;
    }
  }

  /** A session without the deleted id survives; when the id is absent, nothing is removed. */
  lemma {:induction false} RemainingKeepsOthers(sessions: seq<Json>, id: string)
    requires forall j :: 0 <= j < |sessions| ==> sessions[j] != Null && !HasId(sessions[j], id)
    ensures Remaining(sessions, id) == sessions
  {
    if |sessions| > 0 {
      RemainingKeepsOthers(sessions[..|sessions| - 1], id);
      assert sessions[..|sessions| - 1] + [sessions[|sessions| - 1]] == sessions;
    }
  }
}
