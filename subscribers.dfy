/** `SubscribersService`: job-alert subscriptions keyed by email: creation,
    paging, lookup, upsert by email, removal, and the actor's own skills. */
module SubscribersService {
  import opened Common
  import opened Store
  import opened Entities
  import Pagination

  /** The body of an update: the email that keys the upsert and the fields
      the caller chose to send. */
  datatype SubscriberPatch = SubscriberPatch(email: string, name: Option<string>, skills: Option<seq<string>>)

  /** What the existence check of `create` holds in its variable: the
      document MongoDB found (or `null`) once the query is awaited, or the
      query object itself when it is not. */
  datatype Lookup = NullDoc | FoundDoc(id: Id) | PendingQuery

  /** JavaScript truthiness of that value: only `null` is falsy; a query
      object, like any object, is truthy. */
  predicate TruthyLookup(v: Lookup) {
    !v.NullDoc?
  }

  /** Some stored subscriber, deleted or not, has the email. */
  predicate EmailTaken(subs: Table<Subscriber>, email: string) {
    exists id :: id in subs && subs[id].data.email == email
  }

  /** The upsert's merge: the email is the key; the fields sent overwrite the
      stored ones. */
  function ApplyPatch(p: SubscriberPatch, s: Subscriber): (s': Subscriber)
    ensures s'.email == p.email
    ensures p.name.Some? ==> s'.name == p.name.value
    ensures p.name.None? ==> s'.name == s.name
    ensures p.skills.Some? ==> s'.skills == p.skills.value
    ensures p.skills.None? ==> s'.skills == s.skills
    ensures p == SubscriberPatch(s.email, None, None) ==> s' == s
  {
    Subscriber(p.name.GetOr(s.name), p.email, p.skills.GetOr(s.skills))
  }

  /** The document an upsert inserts when no subscriber has the email: the
      fields sent, with a field left out stored empty. */
  function Upserted(p: SubscriberPatch): (s: Subscriber)
    ensures s.email == p.email
  {
    Subscriber(p.name.GetOr(""), p.email, p.skills.GetOr([]))
  }

  class SubscribersService {
    const db: Database

    constructor (db: Database)
      ensures this.db == db
    {
      this.db := db;
    }

    /** `create` as the source has it: the existence query is never awaited,
        so the check sees the query object, which is truthy, and every call
        is rejected before anything is stored, whether or not the email is
        in use. */
    method CreateAsWritten(input: Subscriber, actor: Actor, id: Id, now: Time) returns (r: Result<Created>)
      ensures r == Err(BadRequest)
    {
      var isExist := PendingQuery;
      if TruthyLookup(isExist) {
        return Err(BadRequest);
      }
      // Not reached: a query object is always truthy, so the insert that
      // follows in the source never runs.
      return Ok(Created(id, now));
    }

    /** `create` with the existence check awaited: rejected exactly when some
        subscriber has the email; otherwise the subscriber is stored with the
        actor as creator. */
    method Create(input: Subscriber, actor: Actor, id: Id, now: Time) returns (r: Result<Created>)
      requires IsFreshId(id, db.subscribers)
      modifies db`subscribers
      ensures r.Err? <==> EmailTaken(old(db.subscribers), input.email)
      ensures r.Err? ==> r.error == BadRequest && db.subscribers == old(db.subscribers)
      ensures r.Ok? ==> && r.value == Created(id, now)
                        && db.subscribers == Insert(old(db.subscribers), id, input, Some(actor), now)
    {
      var found := FindOneWhere(db.subscribers, (s: Subscriber) => s.email == input.email);
      var isExist := if found.Some? then FoundDoc(found.value) else NullDoc;
      if TruthyLookup(isExist) {
        return Err(BadRequest);
      }
      db.subscribers := Insert(db.subscribers, id, input, Some(actor), now);
      return Ok(Created(id, now));
    }

    /** `findAll`: the page metadata for the subscribers the filter selects, or
        BadRequest when the skip the page asks for is negative. */
    method FindAll(current: int, limit: Option<int>, filter: Subscriber -> bool) returns (r: Result<Pagination.Meta>)
      ensures r.Err? <==> Pagination.SkipRejected(current, limit)
      ensures r.Err? ==> r.error == BadRequest
      ensures r.Ok? ==> r.value.total == |Matching(db.subscribers, filter)|
      ensures r.Ok? ==> r.value == Pagination.PageMeta(current, limit, Count(db.subscribers, filter))
    {
      if Pagination.SkipRejected(current, limit) {
        return Err(BadRequest);
      }
      return Ok(Pagination.PageMeta(current, limit, Count(db.subscribers, filter)));
    }

    /** `findOne`: a malformed id is rejected; otherwise the subscriber with
        that id, if stored, audit fields included. */
    method FindOne(id: Id) returns (r: Result<Option<Doc<Subscriber>>>)
      ensures !IsObjectId(id) <==> r == Err(BadRequest)
      ensures IsObjectId(id) && id in db.subscribers ==> r == Ok(Some(db.subscribers[id]))
      ensures IsObjectId(id) && id !in db.subscribers ==> r == Ok(None)
    {
      if !IsObjectId(id) {
        return Err(BadRequest);
      }
      if id in db.subscribers {
        return Ok(Some(db.subscribers[id]));
      }
      return Ok(None);
    }

    /** `update`: an upsert keyed by email. When a subscriber has the email,
        one such subscriber is merged with the patch; otherwise a new one is
        inserted under `id`. Either way the written document carries the
        email and the actor as updater. */
    method Update(patch: SubscriberPatch, actor: Actor, id: Id, now: Time) returns (written: Id)
      requires IsFreshId(id, db.subscribers)
      modifies db`subscribers
      ensures written in db.subscribers && db.subscribers[written].data.email == patch.email
      ensures db.subscribers[written].audit.updatedBy == Some(actor)
      ensures EmailTaken(old(db.subscribers), patch.email) ==>
                && written in old(db.subscribers)
                && old(db.subscribers)[written].data.email == patch.email
                && db.subscribers == UpdateOne(old(db.subscribers), written, s => ApplyPatch(patch, s), actor)
      ensures !EmailTaken(old(db.subscribers), patch.email) ==>
                && written == id
                && db.subscribers == UpdateOne(Insert(old(db.subscribers), id, Upserted(patch), None, now),
                                               id, s => ApplyPatch(patch, s), actor)
    {
      var found := FindOneWhere(db.subscribers, (s: Subscriber) => s.email == patch.email);
      if found.Some? {
        written := found.value;
      } else {
        written := id;
        db.subscribers := Insert(db.subscribers, id, Upserted(patch), None, now);
      }
      db.subscribers := UpdateOne(db.subscribers, written, s => ApplyPatch(patch, s), actor);
    }

    /** `remove`: no id check of its own, but a malformed id fails the cast
        of the `_id` filter; otherwise the actor is stamped as deleter and the
        subscriber soft-deleted. */
    method Remove(id: Id, actor: Actor, now: Time) returns (r: Result<nat>)
      modifies db`subscribers
      ensures r.Err? <==> !IsObjectId(id)
      ensures r.Err? ==> r.error == BadRequest && db.subscribers == old(db.subscribers)
      ensures r.Ok? ==> (db.subscribers, r.value) == StampAndDelete(old(db.subscribers), id, actor, now)
    {
      if !IsObjectId(id) {
        return Err(BadRequest);
      }
      var (subs', deleted) := StampAndDelete(db.subscribers, id, actor, now);
      db.subscribers := subs';
      return Ok(deleted);
    }

    /** `getSkills`: the skills of a subscriber whose email is the actor's,
        or nothing when there is none. */
    method GetSkills(actor: Actor) returns (skills: Option<seq<string>>)
      ensures skills.None? <==> !EmailTaken(db.subscribers, actor.email)
      ensures skills.Some? ==>
                exists k :: k in db.subscribers && db.subscribers[k].data.email == actor.email
                                                && db.subscribers[k].data.skills == skills.value
    {
      var found := FindOneWhere(db.subscribers, (s: Subscriber) => s.email == actor.email);
      if found.Some? {
        return Some(db.subscribers[found.value].data.skills);
      }
      return None;
    }
  }

  /** After an upsert, the actor's subscription is found by `getSkills`, with
      the skills the upsert sent, provided the emails are unique. */
  method UpsertThenGetSkills(service: SubscribersService, skills: seq<string>, actor: Actor, id: Id, now: Time)
      returns (got: Option<seq<string>>)
    requires IsFreshId(id, service.db.subscribers)
    requires forall a, b :: a in service.db.subscribers && b in service.db.subscribers && a != b ==>
               service.db.subscribers[a].data.email != service.db.subscribers[b].data.email
    modifies service.db`subscribers
    ensures got == Some(skills)
  {
    var written := service.Update(SubscriberPatch(actor.email, None, Some(skills)), actor, id, now);
    got := service.GetSkills(actor);
  }
}
