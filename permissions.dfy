/** `PermissionsService`: permission creation keyed by the (apiPath, method)
    pair, paging, lookup, field overwrite and removal. Every exception is
    rethrown as BadRequest. */
module PermissionsService {
  import opened Common
  import opened Store
  import opened Entities
  import Pagination

  /** The four fields `update` reads from its body; a field left out of the
      body is not written. */
  datatype PermissionPatch = PermissionPatch(
    name: Option<string>, apiPath: Option<string>, httpMethod: Option<string>, moduleName: Option<string>)

  /** Some stored permission, deleted or not, guards the same route. */
  predicate RouteTaken(perms: Table<Permission>, apiPath: string, httpMethod: string) {
    exists id :: id in perms && perms[id].data.apiPath == apiPath && perms[id].data.httpMethod == httpMethod
  }

  /** No two stored permissions share an (apiPath, method) pair. */
  predicate UniqueRoutes(perms: Table<Permission>) {
    forall a, b :: a in perms && b in perms && a != b ==>
      perms[a].data.apiPath != perms[b].data.apiPath || perms[a].data.httpMethod != perms[b].data.httpMethod
  }

  /** The update's overwrite of the four fields. */
  function ApplyPatch(p: PermissionPatch, x: Permission): (x': Permission)
    ensures p.name.Some? ==> x'.name == p.name.value
    ensures p.name.None? ==> x'.name == x.name
    ensures p.apiPath.Some? ==> x'.apiPath == p.apiPath.value
    ensures p.apiPath.None? ==> x'.apiPath == x.apiPath
    ensures p.httpMethod.Some? ==> x'.httpMethod == p.httpMethod.value
    ensures p.httpMethod.None? ==> x'.httpMethod == x.httpMethod
    ensures p.moduleName.Some? ==> x'.moduleName == p.moduleName.value
    ensures p.moduleName.None? ==> x'.moduleName == x.moduleName
    ensures p == PermissionPatch(None, None, None, None) ==> x' == x
  {
    Permission(p.name.GetOr(x.name), p.apiPath.GetOr(x.apiPath),
               p.httpMethod.GetOr(x.httpMethod), p.moduleName.GetOr(x.moduleName))
  }

  /** An update that leaves the route alone keeps routes unique. */
  lemma {:induction false} UpdateKeepingRoute(perms: Table<Permission>, id: Id, p: PermissionPatch, who: Actor)
    requires UniqueRoutes(perms)
    requires p.apiPath.None? && p.httpMethod.None?
    ensures UniqueRoutes(UpdateOne(perms, id, x => ApplyPatch(p, x), who))
  {
    var perms' := UpdateOne(perms, id, x => ApplyPatch(p, x), who);
    forall a, b | a in perms' && b in perms' && a != b
      ensures perms'[a].data.apiPath != perms'[b].data.apiPath || perms'[a].data.httpMethod != perms'[b].data.httpMethod
    {
      assert perms'[a].data.apiPath == perms[a].data.apiPath && perms'[a].data.httpMethod == perms[a].data.httpMethod;
      assert perms'[b].data.apiPath == perms[b].data.apiPath && perms'[b].data.httpMethod == perms[b].data.httpMethod;
    }
  }

  /** `update` does not re-check the pair: moving a permission onto the route
      of another one breaks uniqueness. */
  lemma {:induction false} UpdateMayDuplicateRoute(perms: Table<Permission>, a: Id, b: Id, who: Actor)
    requires a in perms && b in perms && a != b
    ensures var patch := PermissionPatch(None, Some(perms[a].data.apiPath), Some(perms[a].data.httpMethod), None);
            !UniqueRoutes(UpdateOne(perms, b, x => ApplyPatch(patch, x), who))
  {
    var patch := PermissionPatch(None, Some(perms[a].data.apiPath), Some(perms[a].data.httpMethod), None);
    var perms' := UpdateOne(perms, b, x => ApplyPatch(patch, x), who);
    assert perms'[a] == perms[a];
    assert perms'[b].data.apiPath == perms[a].data.apiPath;
  }

  class PermissionsService {
    const db: Database

    constructor (db: Database)
      ensures this.db == db
    {
      this.db := db;
    }

    /** `create`: rejected when a permission with the same (apiPath, method)
        exists; otherwise exactly the four fields are stored with the actor as
        creator, and the new id and creation time are returned. */
    method Create(input: Permission, actor: Actor, id: Id, now: Time) returns (r: Result<Created>)
      requires IsFreshId(id, db.permissions)
      modifies db`permissions
      ensures r.Err? <==> RouteTaken(old(db.permissions), input.apiPath, input.httpMethod)
      ensures r.Err? ==> r.error == BadRequest && db.permissions == old(db.permissions)
      ensures r.Ok? ==> && r.value == Created(id, now)
                        && db.permissions == Insert(old(db.permissions), id, input, Some(actor), now)
      ensures UniqueRoutes(old(db.permissions)) ==> UniqueRoutes(db.permissions)
    {
      var existing := FindOneWhere(db.permissions,
        (x: Permission) => x.apiPath == input.apiPath && x.httpMethod == input.httpMethod);
      if existing.Some? {
        return Err(BadRequest);
      }
      db.permissions := Insert(db.permissions, id, input, Some(actor), now);
      return Ok(Created(id, now));
    }

    /** `findAll`: the page metadata for the permissions the filter selects, or
        BadRequest when the skip the page asks for is negative. */
    method FindAll(current: int, limit: Option<int>, filter: Permission -> bool) returns (r: Result<Pagination.Meta>)
      ensures r.Err? <==> Pagination.SkipRejected(current, limit)
      ensures r.Err? ==> r.error == BadRequest
      ensures r.Ok? ==> r.value.total == |Matching(db.permissions, filter)|
      ensures r.Ok? ==> r.value == Pagination.PageMeta(current, limit, Count(db.permissions, filter))
    {
      if Pagination.SkipRejected(current, limit) {
        return Err(BadRequest);
      }
      return Ok(Pagination.PageMeta(current, limit, Count(db.permissions, filter)));
    }

    /** `findOne`: a malformed id is rejected; otherwise the permission with
        that id, if stored, audit fields included. */
    method FindOne(id: Id) returns (r: Result<Option<Doc<Permission>>>)
      ensures !IsObjectId(id) <==> r == Err(BadRequest)
      ensures IsObjectId(id) && id in db.permissions ==> r == Ok(Some(db.permissions[id]))
      ensures IsObjectId(id) && id !in db.permissions ==> r == Ok(None)
    {
      if !IsObjectId(id) {
        return Err(BadRequest);
      }
      if id in db.permissions {
        return Ok(Some(db.permissions[id]));
      }
      return Ok(None);
    }

    /** `update`: a malformed id is rejected; otherwise the fields sent are
        overwritten and the actor stamped as updater, with no uniqueness check. */
    method Update(id: Id, patch: PermissionPatch, actor: Actor) returns (r: Result<()>)
      modifies db`permissions
      ensures r.Err? <==> !IsObjectId(id)
      ensures r.Err? ==> r.error == BadRequest && db.permissions == old(db.permissions)
      ensures r.Ok? ==> db.permissions == UpdateOne(old(db.permissions), id, x => ApplyPatch(patch, x), actor)
    {
      if !IsObjectId(id) {
        return Err(BadRequest);
      }
      db.permissions := UpdateOne(db.permissions, id, x => ApplyPatch(patch, x), actor);
      return Ok(());
    }

    /** `remove`: a malformed id is rejected; otherwise the actor is stamped
        as deleter and the permission soft-deleted. */
    method Remove(id: Id, actor: Actor, now: Time) returns (r: Result<nat>)
      modifies db`permissions
      ensures r.Err? <==> !IsObjectId(id)
      ensures r.Err? ==> r.error == BadRequest && db.permissions == old(db.permissions)
      ensures r.Ok? ==> (db.permissions, r.value) == StampAndDelete(old(db.permissions), id, actor, now)
    {
      if !IsObjectId(id) {
        return Err(BadRequest);
      }
      var (perms', deleted) := StampAndDelete(db.permissions, id, actor, now);
      db.permissions := perms';
      return Ok(deleted);
    }
  }
}
