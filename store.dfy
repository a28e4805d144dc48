/** An abstract MongoDB collection under the soft-delete plugin: a map from
    document id to the document's business data plus its audit sub-object
    (createdBy / updatedBy / deletedBy stamps, `isDeleted`, `deletedAt`).

    Visibility assumption. The plugin's own code is not part of this model;
    the model assumes that `find` and `count` leave out soft-deleted
    documents (predicate `Listed`), while `findOne`, `findById` and
    `updateOne` match every document, deleted or not.

    Cast assumption. Mongoose casts an `_id` in a filter to an ObjectId and
    throws a cast error when the string is not one (`IsObjectId`); the
    services catch that error and answer BadRequest, except where a service
    has no try/catch around the call.

    Skip assumption. MongoDB refuses a negative `skip`, so a `find` asked to
    skip a negative number of documents fails and the surrounding catch
    answers BadRequest (`Pagination.SkipRejected`). */
module Store {
  import opened Common

  datatype Audit = Audit(
    createdBy: Option<Actor>,
    createdAt: Time,
    updatedBy: Option<Actor>,
    deletedBy: Option<Actor>,
    isDeleted: bool,
    deletedAt: Option<Time>)

  datatype Doc<T> = Doc(data: T, audit: Audit)

  type Table<T> = map<Id, Doc<T>>

  /** Whether `find` / `count` return the document (the visibility assumption). */
  predicate Listed<T>(d: Doc<T>) {
    !d.audit.isDeleted
  }

  /** What most `create` endpoints return: the new id and its creation time. */
  datatype Created = Created(id: Id, createdAt: Time)

  /** `Model.create(...)`: a new, live document under a fresh id. */
  function Insert<T>(t: Table<T>, id: Id, data: T, who: Option<Actor>, now: Time): (t': Table<T>)
    requires id !in t
    ensures t'.Keys == t.Keys + {id}
    ensures t'[id].data == data && Listed(t'[id])
    ensures t'[id].audit.createdBy == who && t'[id].audit.createdAt == now
    ensures t'[id].audit.updatedBy == None && t'[id].audit.deletedBy == None
    ensures forall k :: k in t ==> t'[k] == t[k]
  {
    t[id := Doc(data, Audit(who, now, None, None, false, None))]
  }

  predicate Distinct(ids: seq<Id>) {
    forall i, j :: 0 <= i < j < |ids| ==> ids[i] != ids[j]
  }

  /** `Model.insertMany(docs)`: each element becomes a new document, the i-th
      one under the i-th fresh id. */
  function InsertMany<T>(t: Table<T>, ids: seq<Id>, docs: seq<T>, now: Time): (t': Table<T>)
    requires |ids| == |docs| && Distinct(ids)
    requires forall i :: 0 <= i < |ids| ==> ids[i] !in t
    ensures forall k :: k in t' <==> k in t || k in ids
    ensures forall k :: k in t ==> t'[k] == t[k]
    ensures forall i :: 0 <= i < |ids| ==> t'[ids[i]].data == docs[i] && Listed(t'[ids[i]])
    decreases |ids|
  {
    if ids == [] then t
    else
      DistinctTail(ids);
      var rest := InsertMany(t, ids[1..], docs[1..], now);
      Insert(rest, ids[0], docs[0], None, now)
  }

  /** The tail of a duplicate-free sequence: itself duplicate-free, without
      the head, and holding every other element at the previous index. */
  lemma DistinctTail(ids: seq<Id>)
    requires Distinct(ids) && ids != []
    ensures Distinct(ids[1..]) && ids[0] !in ids[1..]
    ensures forall k :: k in ids <==> k == ids[0] || k in ids[1..]
    ensures forall i :: 1 <= i < |ids| ==> ids[i] == ids[1..][i - 1] && ids[i] != ids[0]
  {
    forall i | 0 <= i < |ids[1..]| ensures ids[1..][i] != ids[0] {
      assert ids[1..][i] == ids[i + 1];
    }
    assert ids == [ids[0]] + ids[1..];
  }

  /** `updateOne` by `_id` with a patch and an updatedBy stamp: the matched document's
      data goes through `apply`, and only its updatedBy stamp changes in the
      audit. A valid id that matches nothing changes nothing. */
  function UpdateOne<T>(t: Table<T>, id: Id, apply: T -> T, who: Actor): (t': Table<T>)
    ensures t'.Keys == t.Keys
    ensures id in t ==>
              t'[id].data == apply(t[id].data) && t'[id].audit == t[id].audit.(updatedBy := Some(who))
    ensures forall k :: k in t && k != id ==> t'[k] == t[k]
  {
    if id in t then t[id := Doc(apply(t[id].data), t[id].audit.(updatedBy := Some(who)))] else t
  }

  /** An `updateOne` that sets data fields only, with no audit stamp. */
  function Modify<T>(t: Table<T>, id: Id, apply: T -> T): (t': Table<T>)
    ensures t'.Keys == t.Keys
    ensures id in t ==> t'[id] == t[id].(data := apply(t[id].data))
    ensures forall k :: k in t && k != id ==> t'[k] == t[k]
  {
    if id in t then t[id := t[id].(data := apply(t[id].data))] else t
  }

  /** `updateOne` by `_id` setting deletedBy: the stamp written just before a soft delete. */
  function StampDeleted<T>(t: Table<T>, id: Id, who: Actor): (t': Table<T>)
    ensures t'.Keys == t.Keys
    ensures id in t ==>
              t'[id].data == t[id].data && t'[id].audit == t[id].audit.(deletedBy := Some(who))
    ensures forall k :: k in t && k != id ==> t'[k] == t[k]
  {
    if id in t then t[id := t[id].(audit := t[id].audit.(deletedBy := Some(who)))] else t
  }

  /** `softDelete` by `_id`: the plugin looks the document up with `find`
      (so an already deleted one is not seen), flags it deleted and records the
      time; it reports how many documents it flagged. */
  function SoftDelete<T>(t: Table<T>, id: Id, now: Time): (r: (Table<T>, nat))
    ensures r.0.Keys == t.Keys
    ensures r.1 == (if id in t && Listed(t[id]) then 1 else 0)
    ensures id in t ==> r.0[id].data == t[id].data && !Listed(r.0[id])
    ensures id in t && Listed(t[id]) ==>
              r.0[id].audit == t[id].audit.(isDeleted := true, deletedAt := Some(now))
    ensures id in t && !Listed(t[id]) ==> r.0[id] == t[id]
    ensures forall k :: k in t && k != id ==> r.0[k] == t[k]
  {
    if id in t && Listed(t[id]) then
      (t[id := t[id].(audit := t[id].audit.(isDeleted := true, deletedAt := Some(now)))], 1)
    else (t, 0)
  }

  /** A service's `remove`: `updateOne` stamps `deletedBy`, then `softDelete`
      flags the document. A document that was already deleted keeps its
      deletion time and only gets the new stamp; the count reported is 0. */
  function StampAndDelete<T>(t: Table<T>, id: Id, who: Actor, now: Time): (r: (Table<T>, nat))
    ensures r.0.Keys == t.Keys
    ensures r.1 == (if id in t && Listed(t[id]) then 1 else 0)
    ensures id in t ==> && r.0[id].data == t[id].data && !Listed(r.0[id])
                        && r.0[id].audit.deletedBy == Some(who)
                        && r.0[id].audit.createdBy == t[id].audit.createdBy
                        && r.0[id].audit.createdAt == t[id].audit.createdAt
                        && r.0[id].audit.updatedBy == t[id].audit.updatedBy
    ensures id in t && Listed(t[id]) ==> r.0[id].audit.deletedAt == Some(now)
    ensures id in t && !Listed(t[id]) ==> r.0[id].audit.deletedAt == t[id].audit.deletedAt
    ensures forall k :: k in t && k != id ==> r.0[k] == t[k]
  {
    SoftDelete(StampDeleted(t, id, who), id, now)
  }

  /** The ids `find(filter)` returns: listed documents whose data satisfy the filter. */
  function Matching<T>(t: Table<T>, filter: T -> bool): (s: set<Id>)
    ensures forall id :: id in s <==> id in t && Listed(t[id]) && filter(t[id].data)
  {
    set id | id in t && Listed(t[id]) && filter(t[id].data)
  }

  /** `count` with a filter, and the length of a `find` with it. */
  function Count<T>(t: Table<T>, filter: T -> bool): nat {
    |Matching(t, filter)|
  }

  /** Stamping then soft-deleting a second time changes nothing but the
      deletedBy stamp: the document stays deleted, keeps its first deletion
      time, and the second softDelete reports that it flagged nothing. */
  lemma RemoveTwice<T>(t: Table<T>, id: Id, a: Actor, b: Actor, t1: Time, t2: Time)
    requires id in t
    ensures var first := SoftDelete(StampDeleted(t, id, a), id, t1).0;
            var second := SoftDelete(StampDeleted(first, id, b), id, t2);
            && second.1 == 0
            && !Listed(second.0[id])
            && second.0[id].data == t[id].data
            && second.0[id].audit.deletedAt == first[id].audit.deletedAt
            && second.0[id].audit == first[id].audit.(deletedBy := Some(b))
  {
  }

  /** `findOne(query)` / `findById`: some document whose data satisfy the
      query, deleted or not, when there is one. Which one MongoDB returns
      among several matches is left open. */
  method FindOneWhere<T>(t: Table<T>, query: T -> bool) returns (r: Option<Id>)
    ensures r.Some? ==> r.value in t && query(t[r.value].data)
    ensures r.None? <==> forall id :: id in t ==> !query(t[id].data)
  {
    if exists id :: id in t && query(t[id].data) {
      var id :| id in t && query(t[id].data);
      r := Some(id);
    } else {
      r := None;
    }
  }

  /** A `find` that selects only `_id`: the ids of the listed documents, each once, in
      an order the database chooses. */
  method ListedIds<T>(t: Table<T>) returns (ids: seq<Id>)
    ensures Distinct(ids)
    ensures forall id :: id in ids <==> id in t && Listed(t[id])
  {
    var rest := set id | id in t && Listed(t[id]);
    ids := [];
    while rest != {}
      invariant Distinct(ids)
      invariant forall id :: id in ids ==> id !in rest
      invariant forall id :: id in ids || id in rest <==> id in t && Listed(t[id])
      decreases |rest|
    {
      var id :| id in rest;
      ids := ids + [id];
      rest := rest - {id};
    }
  }
}
