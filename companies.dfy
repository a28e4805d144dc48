/** `CompaniesService`: employer records: creation with no uniqueness check,
    paging, lookup, update and removal. */
module CompaniesService {
  import opened Common
  import opened Store
  import opened Entities
  import Pagination

  /** The body of an update: the fields the caller chose to send. */
  datatype CompanyPatch = CompanyPatch(
    name: Option<string>, address: Option<string>, description: Option<string>, logo: Option<string>)

  /** Every field the patch sends has that value in `c`. */
  predicate Agrees(p: CompanyPatch, c: Company) {
    && (p.name.Some? ==> c.name == p.name.value)
    && (p.address.Some? ==> c.address == p.address.value)
    && (p.description.Some? ==> c.description == p.description.value)
    && (p.logo.Some? ==> c.logo == p.logo.value)
  }

  /** Every field the patch leaves out has the same value in `c'` as in `c`. */
  predicate Keeps(p: CompanyPatch, c: Company, c': Company) {
    && (p.name.None? ==> c'.name == c.name)
    && (p.address.None? ==> c'.address == c.address)
    && (p.description.None? ==> c'.description == c.description)
    && (p.logo.None? ==> c'.logo == c.logo)
  }

  /** The update's merge: the fields sent overwrite the stored ones, the
      others keep their value. */
  function ApplyPatch(p: CompanyPatch, c: Company): (c': Company)
    ensures Agrees(p, c') && Keeps(p, c, c')
    ensures Agrees(p, c) ==> c' == c
    ensures p == CompanyPatch(None, None, None, None) ==> c' == c
  {
    Company(p.name.GetOr(c.name), p.address.GetOr(c.address),
            p.description.GetOr(c.description), p.logo.GetOr(c.logo))
  }

  class CompaniesService {
    const db: Database

    constructor (db: Database)
      ensures this.db == db
    {
      this.db := db;
    }

    /** `create`: the company is stored with the actor as creator, even when
        another company has the same name, and the new document is returned. */
    method Create(input: Company, actor: Actor, id: Id, now: Time) returns (r: Result<(Id, Doc<Company>)>)
      requires IsFreshId(id, db.companies)
      modifies db`companies
      ensures db.companies == Insert(old(db.companies), id, input, Some(actor), now)
      ensures id in db.companies && r == Ok((id, db.companies[id]))
    {
      db.companies := Insert(db.companies, id, input, Some(actor), now);
      return Ok((id, db.companies[id]));
    }

    /** `findAll`: the page metadata for the companies the filter selects, or
        BadRequest when the skip the page asks for is negative. */
    method FindAll(current: int, limit: Option<int>, filter: Company -> bool) returns (r: Result<Pagination.Meta>)
      ensures r.Err? <==> Pagination.SkipRejected(current, limit)
      ensures r.Err? ==> r.error == BadRequest
      ensures r.Ok? ==> r.value.total == |Matching(db.companies, filter)|
      ensures r.Ok? ==> r.value == Pagination.PageMeta(current, limit, Count(db.companies, filter))
    {
      if Pagination.SkipRejected(current, limit) {
        return Err(BadRequest);
      }
      return Ok(Pagination.PageMeta(current, limit, Count(db.companies, filter)));
    }

    /** `findOne`: a malformed id is rejected (the NotFound is rethrown as
        BadRequest); otherwise the company with that id, if stored, audit
        fields included. */
    method FindOne(id: Id) returns (r: Result<Option<Doc<Company>>>)
      ensures !IsObjectId(id) <==> r == Err(BadRequest)
      ensures IsObjectId(id) && id in db.companies ==> r == Ok(Some(db.companies[id]))
      ensures IsObjectId(id) && id !in db.companies ==> r == Ok(None)
    {
      if !IsObjectId(id) {
        return Err(BadRequest);
      }
      if id in db.companies {
        return Ok(Some(db.companies[id]));
      }
      return Ok(None);
    }

    /** `update`: a malformed id fails the cast of the `_id` filter;
        otherwise the patch is merged and the actor stamped as updater. */
    method Update(id: Id, patch: CompanyPatch, actor: Actor) returns (r: Result<()>)
      modifies db`companies
      ensures r.Err? <==> !IsObjectId(id)
      ensures r.Err? ==> r.error == BadRequest && db.companies == old(db.companies)
      ensures r.Ok? ==> db.companies == UpdateOne(old(db.companies), id, c => ApplyPatch(patch, c), actor)
    {
      if !IsObjectId(id) {
        return Err(BadRequest);
      }
      db.companies := UpdateOne(db.companies, id, c => ApplyPatch(patch, c), actor);
      return Ok(());
    }

    /** `remove`: a malformed id fails the cast; otherwise the actor is
        stamped as deleter and the company soft-deleted. */
    method Remove(id: Id, actor: Actor, now: Time) returns (r: Result<nat>)
      modifies db`companies
      ensures r.Err? <==> !IsObjectId(id)
      ensures r.Err? ==> r.error == BadRequest && db.companies == old(db.companies)
      ensures r.Ok? ==> (db.companies, r.value) == StampAndDelete(old(db.companies), id, actor, now)
    {
      if !IsObjectId(id) {
        return Err(BadRequest);
      }
      var (companies', deleted) := StampAndDelete(db.companies, id, actor, now);
      db.companies := companies';
      return Ok(deleted);
    }
  }
}
