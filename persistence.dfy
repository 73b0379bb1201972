/**
 * The save pattern both entities share: a record with no id is inserted and
 * takes the id the store returns; a record with an id is updated by that id.
 * The store itself is not modelled: a save produces the query it would send,
 * and the id the store hands back for an insert is an input.
 */
module Persistence {
  import opened JsValues

  datatype Table = CustomersTable | ReservationsTable

  /**
   * A query sent to the store. `values` are the entity's columns in the order
   * the SQL lists them; an update also passes the key as its last parameter.
   */
  datatype Query =
    | Insert(table: Table, values: seq<JsVal>)
    | Update(table: Table, values: seq<JsVal>, key: JsVal)
  {
    /** The parameter list ($1, $2, ...) handed to the store. */
    function Params(): (p: seq<JsVal>)
      ensures |p| == |values| + (if Update? then 1 else 0)
      ensures p[..|values|] == values
      ensures Update? ==> p[|values|] == key
    {
      if Insert? then values else values + [key]
    }
  }

  /** What one save yields: the query sent and the entity's id afterwards. */
  datatype Saved = Saved(query: Query, id: JsVal)

  /** Transient: the id is still `undefined` (a `null` id counts as set, since the test is `=== undefined`). */
  predicate IsTransient(id: JsVal) {
    id == Undefined
  }

  /**
   * One `save()` on an entity whose id is `id` and whose columns are `values`;
   * `returnedId` is the id the store reports for an insert.
   */
  function SaveStep(table: Table, id: JsVal, values: seq<JsVal>, returnedId: int): (s: Saved)
    ensures !IsTransient(s.id)
    ensures s.query.table == table && s.query.values == values
    ensures s.query.Insert? <==> IsTransient(id)
    ensures s.query.Insert? ==> s.id == Num(returnedId)
    ensures s.query.Update? ==> s.query.key == id && s.id == id
  {
    if IsTransient(id) then Saved(Insert(table, values), Num(returnedId))
    else Saved(Update(table, values, id), id)
  }

  /** The arguments of one call of `save()`: the columns at that moment and the id the store would return. */
  datatype SaveCall = SaveCall(values: seq<JsVal>, returnedId: int)

  /** A series of saves of one entity, starting from id `id`: the queries sent and the final id. */
  function SaveRun(table: Table, id: JsVal, calls: seq<SaveCall>): (r: (seq<Query>, JsVal))
    ensures |r.0| == |calls|
    decreases |calls|
  {
    if calls == [] then ([], id)
    else
      var s := SaveStep(table, id, calls[0].values, calls[0].returnedId);
      var rest := SaveRun(table, s.id, calls[1..]);
      ([s.query] + rest.0, rest.1)
  }

  /** How many of the queries are inserts. */
  function InsertCount(qs: seq<Query>): (c: nat)
    ensures c == 0 <==> forall k :: 0 <= k < |qs| ==> qs[k].Update?
  {
    if qs == [] then 0
    else (if qs[0].Insert? then 1 else 0) + InsertCount(qs[1..])
  }

  /** Saving a persisted entity only ever updates it, keyed on its unchanged id. */
  lemma {:induction false} PersistedSavesUpdate(table: Table, id: JsVal, calls: seq<SaveCall>)
    requires !IsTransient(id)
    ensures var r := SaveRun(table, id, calls);
      && r.1 == id
      && forall k :: 0 <= k < |calls| ==> r.0[k] == Update(table, calls[k].values, id)
    decreases |calls|
  {
    if calls != [] {
      PersistedSavesUpdate(table, id, calls[1..]);
    }
  }

  /**
   * The first save of a transient entity inserts and fixes its id to the one
   * the store returned; every later save updates by that id.
   */
  lemma FirstSaveInserts(table: Table, calls: seq<SaveCall>)
    requires |calls| > 0
    ensures var r := SaveRun(table, Undefined, calls);
      && r.0[0] == Insert(table, calls[0].values)
      && r.1 == Num(calls[0].returnedId)
      && forall k :: 1 <= k < |calls| ==> r.0[k] == Update(table, calls[k].values, Num(calls[0].returnedId))
  {
    var id := Num(calls[0].returnedId);
    PersistedSavesUpdate(table, id, calls[1..]);
    var r := SaveRun(table, Undefined, calls);
    forall k | 1 <= k < |calls|
      ensures r.0[k] == Update(table, calls[k].values, id)
    {
      assert r.0[k] == SaveRun(table, id, calls[1..]).0[k - 1];
    }
  }

  /** Inserts in a series of saves: exactly one if it starts transient and is not empty, none otherwise. */
  lemma {:induction false} AtMostOneInsert(table: Table, id: JsVal, calls: seq<SaveCall>)
    ensures InsertCount(SaveRun(table, id, calls).0) == (if IsTransient(id) && calls != [] then 1 else 0)
    decreases |calls|
  {
    if calls != [] {
      var s := SaveStep(table, id, calls[0].values, calls[0].returnedId);
      var qs := SaveRun(table, id, calls).0;
      AtMostOneInsert(table, s.id, calls[1..]);
      assert qs[1..] == SaveRun(table, s.id, calls[1..]).0;
    }
  }
}
