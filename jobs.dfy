/** `JobsService`: job postings: creation guarded by the end date, paging,
    lookup, update and removal. Every exception is rethrown as BadRequest. */
module JobsService {
  import opened Common
  import opened Store
  import opened Entities
  import Pagination

  /** The body of an update: the fields the caller chose to send. */
  datatype JobPatch = JobPatch(
    name: Option<string>, skills: Option<seq<string>>, company: Option<JobCompany>,
    location: Option<string>, salary: Option<nat>, quantity: Option<int>, level: Option<string>,
    description: Option<string>, startDate: Option<Time>, endDate: Option<Time>, isActive: Option<bool>)

  const NO_CHANGE: JobPatch := JobPatch(None, None, None, None, None, None, None, None, None, None, None)

  /** Every field the patch sends has that value in `j`. */
  predicate Agrees(p: JobPatch, j: Job) {
    && (p.name.Some? ==> j.name == p.name.value)
    && (p.skills.Some? ==> j.skills == p.skills.value)
    && (p.company.Some? ==> j.company == p.company.value)
    && (p.location.Some? ==> j.location == p.location.value)
    && (p.salary.Some? ==> j.salary == p.salary.value)
    && (p.quantity.Some? ==> j.quantity == p.quantity.value)
    && (p.level.Some? ==> j.level == p.level.value)
    && (p.description.Some? ==> j.description == p.description.value)
    && (p.startDate.Some? ==> j.startDate == p.startDate.value)
    && (p.endDate.Some? ==> j.endDate == p.endDate.value)
    && (p.isActive.Some? ==> j.isActive == p.isActive.value)
  }

  /** Every field the patch leaves out has the same value in `j'` as in `j`. */
  predicate Keeps(p: JobPatch, j: Job, j': Job) {
    && (p.name.None? ==> j'.name == j.name)
    && (p.skills.None? ==> j'.skills == j.skills)
    && (p.company.None? ==> j'.company == j.company)
    && (p.location.None? ==> j'.location == j.location)
    && (p.salary.None? ==> j'.salary == j.salary)
    && (p.quantity.None? ==> j'.quantity == j.quantity)
    && (p.level.None? ==> j'.level == j.level)
    && (p.description.None? ==> j'.description == j.description)
    && (p.startDate.None? ==> j'.startDate == j.startDate)
    && (p.endDate.None? ==> j'.endDate == j.endDate)
    && (p.isActive.None? ==> j'.isActive == j.isActive)
  }

  /** The update's merge: the fields sent overwrite the stored ones, the
      others keep their value. */
  function ApplyPatch(p: JobPatch, j: Job): (j': Job)
    ensures Agrees(p, j')
    ensures Keeps(p, j, j')
    ensures Agrees(p, j) ==> j' == j
    ensures p == NO_CHANGE ==> j' == j
  {
    var j' := Job(p.name.GetOr(j.name), p.skills.GetOr(j.skills), p.company.GetOr(j.company),
                  p.location.GetOr(j.location), p.salary.GetOr(j.salary), p.quantity.GetOr(j.quantity),
                  p.level.GetOr(j.level), p.description.GetOr(j.description), p.startDate.GetOr(j.startDate),
                  p.endDate.GetOr(j.endDate), p.isActive.GetOr(j.isActive));
    assert Agrees(p, j') && Keeps(p, j, j');
    SentAndKept(p, j, j');
    j'
  }

  /** A job that already agrees with a patch is the only job that both
      agrees with it and keeps the other fields of the original. */
  lemma SentAndKept(p: JobPatch, j: Job, j': Job)
    requires Agrees(p, j') && Keeps(p, j, j')
    ensures Agrees(p, j) ==> j' == j
  {
  }

  /** Sending the same patch twice is the same as sending it once. */
  lemma PatchIdempotent(p: JobPatch, j: Job)
    ensures ApplyPatch(p, ApplyPatch(p, j)) == ApplyPatch(p, j)
  {
  }

  /** The current time is after the end date: the posting would already be closed. */
  predicate Expired(now: Time, endDate: Time) {
    now > endDate
  }

  class JobsService {
    const db: Database

    constructor (db: Database)
      ensures this.db == db
    {
      this.db := db;
    }

    /** `create`: rejected when the end date is already past; otherwise the
        job is stored with the actor as creator, and the new id and creation
        time are returned. */
    method Create(input: Job, actor: Actor, id: Id, now: Time) returns (r: Result<Created>)
      requires IsFreshId(id, db.jobs)
      modifies db`jobs
      ensures r.Err? <==> Expired(now, input.endDate)
      ensures r.Err? ==> r.error == BadRequest && db.jobs == old(db.jobs)
      ensures r.Ok? ==> && r.value == Created(id, now) && now <= input.endDate
                        && db.jobs == Insert(old(db.jobs), id, input, Some(actor), now)
    {
      if Expired(now, input.endDate) {
        return Err(BadRequest);
      }
      db.jobs := Insert(db.jobs, id, input, Some(actor), now);
      return Ok(Created(id, now));
    }

    /** `findAll`: the page metadata for the jobs the filter selects, or
        BadRequest when the skip the page asks for is negative. */
    method FindAll(current: int, limit: Option<int>, filter: Job -> bool) returns (r: Result<Pagination.Meta>)
      ensures r.Err? <==> Pagination.SkipRejected(current, limit)
      ensures r.Err? ==> r.error == BadRequest
      ensures r.Ok? ==> r.value.total == |Matching(db.jobs, filter)|
      ensures r.Ok? ==> r.value == Pagination.PageMeta(current, limit, Count(db.jobs, filter))
    {
      if Pagination.SkipRejected(current, limit) {
        return Err(BadRequest);
      }
      return Ok(Pagination.PageMeta(current, limit, Count(db.jobs, filter)));
    }

    /** `findOne`: a malformed id is rejected (the NotFound is rethrown as
        BadRequest); otherwise the job with that id, if stored, audit
        fields included. */
    method FindOne(id: Id) returns (r: Result<Option<Doc<Job>>>)
      ensures !IsObjectId(id) <==> r == Err(BadRequest)
      ensures IsObjectId(id) && id in db.jobs ==> r == Ok(Some(db.jobs[id]))
      ensures IsObjectId(id) && id !in db.jobs ==> r == Ok(None)
    {
      if !IsObjectId(id) {
        return Err(BadRequest);
      }
      if id in db.jobs {
        return Ok(Some(db.jobs[id]));
      }
      return Ok(None);
    }

    /** `update`: no id check of its own, but a malformed id fails the cast
        of the `_id` filter; otherwise the patch is merged and the actor
        stamped as updater. */
    method Update(id: Id, patch: JobPatch, actor: Actor) returns (r: Result<()>)
      modifies db`jobs
      ensures r.Err? <==> !IsObjectId(id)
      ensures r.Err? ==> r.error == BadRequest && db.jobs == old(db.jobs)
      ensures r.Ok? ==> db.jobs == UpdateOne(old(db.jobs), id, j => ApplyPatch(patch, j), actor)
    {
      if !IsObjectId(id) {
        return Err(BadRequest);
      }
      db.jobs := UpdateOne(db.jobs, id, j => ApplyPatch(patch, j), actor);
      return Ok(());
    }

    /** `remove`: a malformed id fails the cast; otherwise the actor is
        stamped as deleter and the job soft-deleted. */
    method Remove(id: Id, actor: Actor, now: Time) returns (r: Result<nat>)
      modifies db`jobs
      ensures r.Err? <==> !IsObjectId(id)
      ensures r.Err? ==> r.error == BadRequest && db.jobs == old(db.jobs)
      ensures r.Ok? ==> (db.jobs, r.value) == StampAndDelete(old(db.jobs), id, actor, now)
    {
      if !IsObjectId(id) {
        return Err(BadRequest);
      }
      var (jobs', deleted) := StampAndDelete(db.jobs, id, actor, now);
      db.jobs := jobs';
      return Ok(deleted);
    }
  }
}
