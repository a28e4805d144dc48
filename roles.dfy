/** `RolesService`: role creation with a name check, paging, lookup, update
    without a name check, and removal that protects the administrator role.
    Every exception is rethrown as BadRequest. */
module RolesService {
  import opened Common
  import opened Store
  import opened Entities
  import Pagination

  /** The body of an update: the fields the caller chose to send. */
  datatype RolePatch = RolePatch(
    name: Option<string>, description: Option<string>, isActive: Option<bool>, permissions: Option<seq<Id>>)

  /** Some stored role, deleted or not, has the name. */
  predicate NameTaken(roles: Table<Role>, name: string) {
    exists id :: id in roles && roles[id].data.name == name
  }

  /** No two stored roles share a name. */
  predicate UniqueNames(roles: Table<Role>) {
    forall a, b :: a in roles && b in roles && a != b ==> roles[a].data.name != roles[b].data.name
  }

  /** The update's merge: the fields sent overwrite the stored ones. */
  function ApplyPatch(p: RolePatch, r: Role): (r': Role)
    ensures p.name.Some? ==> r'.name == p.name.value
    ensures p.name.None? ==> r'.name == r.name
    ensures p.description.Some? ==> r'.description == p.description.value
    ensures p.description.None? ==> r'.description == r.description
    ensures p.isActive.Some? ==> r'.isActive == p.isActive.value
    ensures p.isActive.None? ==> r'.isActive == r.isActive
    ensures p.permissions.Some? ==> r'.permissions == p.permissions.value
    ensures p.permissions.None? ==> r'.permissions == r.permissions
    ensures p == RolePatch(None, None, None, None) ==> r' == r
  {
    Role(p.name.GetOr(r.name), p.description.GetOr(r.description),
         p.isActive.GetOr(r.isActive), p.permissions.GetOr(r.permissions))
  }

  /** Because `update` does not look at the other roles, renaming a role to
      the name of another one breaks name uniqueness. */
  lemma {:induction false} UpdateMayDuplicateName(roles: Table<Role>, a: Id, b: Id, who: Actor)
    requires a in roles && b in roles && a != b
    ensures var patch := RolePatch(Some(roles[a].data.name), None, None, None);
            !UniqueNames(UpdateOne(roles, b, r => ApplyPatch(patch, r), who))
  {
    var patch := RolePatch(Some(roles[a].data.name), None, None, None);
    var roles' := UpdateOne(roles, b, r => ApplyPatch(patch, r), who);
    assert roles'[a] == roles[a];
    assert roles'[b].data.name == roles[a].data.name;
  }

  class RolesService {
    const db: Database

    constructor (db: Database)
      ensures this.db == db
    {
      this.db := db;
    }

    /** `create`: rejected when a role with the name exists; otherwise the
        role is added with the actor as creator, and only the new id and
        creation time are returned. */
    method Create(input: Role, actor: Actor, id: Id, now: Time) returns (r: Result<Created>)
      requires IsFreshId(id, db.roles)
      modifies db`roles
      ensures r.Err? <==> NameTaken(old(db.roles), input.name)
      ensures r.Err? ==> r.error == BadRequest && db.roles == old(db.roles)
      ensures r.Ok? ==> r.value == Created(id, now) && db.roles == Insert(old(db.roles), id, input, Some(actor), now)
      ensures UniqueNames(old(db.roles)) ==> UniqueNames(db.roles)
    {
      var existing := FindOneWhere(db.roles, (x: Role) => x.name == input.name);
      if existing.Some? {
        return Err(BadRequest);
      }
      db.roles := Insert(db.roles, id, input, Some(actor), now);
      return Ok(Created(id, now));
    }

    /** `findAll`: the page metadata for the roles the filter selects, or
        BadRequest when the skip the page asks for is negative. */
    method FindAll(current: int, limit: Option<int>, filter: Role -> bool) returns (r: Result<Pagination.Meta>)
      ensures r.Err? <==> Pagination.SkipRejected(current, limit)
      ensures r.Err? ==> r.error == BadRequest
      ensures r.Ok? ==> r.value.total == |Matching(db.roles, filter)|
      ensures r.Ok? ==> r.value == Pagination.PageMeta(current, limit, Count(db.roles, filter))
    {
      if Pagination.SkipRejected(current, limit) {
        return Err(BadRequest);
      }
      return Ok(Pagination.PageMeta(current, limit, Count(db.roles, filter)));
    }

    /** `findOne`: a malformed id is rejected; so is an id that matches no
        role, since the permissions are then populated on `null`. The answer
        is the whole stored document, audit fields included. */
    method FindOne(id: Id) returns (r: Result<Doc<Role>>)
      ensures r.Err? <==> !IsObjectId(id) || id !in db.roles
      ensures r.Err? ==> r.error == BadRequest
      ensures r.Ok? ==> r.value == db.roles[id]
    {
      if !IsObjectId(id) {
        return Err(BadRequest);
      }
      if id !in db.roles {
        return Err(BadRequest);
      }
      return Ok(db.roles[id]);
    }

    /** `update`: a malformed id is rejected; otherwise the patch is merged and
        the actor stamped as updater, whatever names the other roles have. */
    method Update(id: Id, patch: RolePatch, actor: Actor) returns (r: Result<()>)
      modifies db`roles
      ensures r.Err? <==> !IsObjectId(id)
      ensures r.Err? ==> r.error == BadRequest && db.roles == old(db.roles)
      ensures r.Ok? ==> db.roles == UpdateOne(old(db.roles), id, x => ApplyPatch(patch, x), actor)
    {
      if !IsObjectId(id) {
        return Err(BadRequest);
      }
      db.roles := UpdateOne(db.roles, id, x => ApplyPatch(patch, x), actor);
      return Ok(());
    }

    /** `remove`: a malformed id, an id that matches no role, and the role
        named `adminRole` are rejected and leave the roles unchanged;
        otherwise the actor is stamped as deleter and the role soft-deleted. */
    method Remove(id: Id, actor: Actor, adminRole: string, now: Time) returns (r: Result<nat>)
      modifies db`roles
      ensures r.Err? <==> !IsObjectId(id) || id !in old(db.roles) || old(db.roles)[id].data.name == adminRole
      ensures r.Err? ==> r.error == BadRequest && db.roles == old(db.roles)
      ensures r.Ok? ==> (db.roles, r.value) == StampAndDelete(old(db.roles), id, actor, now)
      ensures r.Ok? ==> (r.value == 1 <==> Listed(old(db.roles)[id]))
    {
      if !IsObjectId(id) {
        return Err(BadRequest);
      }
      if id !in db.roles {
        return Err(BadRequest);
      }
      if db.roles[id].data.name == adminRole {
        return Err(BadRequest);
      }
      var (roles', deleted) := StampAndDelete(db.roles, id, actor, now);
      db.roles := roles';
      return Ok(deleted);
    }
  }

  /** No removal ever deletes a role named `adminRole`: after any call it is
      listed exactly when it was before. */
  method AdminRoleSurvivesRemove(service: RolesService, id: Id, actor: Actor, adminRole: string, now: Time, target: Id)
      returns (r: Result<nat>)
    requires target in service.db.roles && service.db.roles[target].data.name == adminRole
    modifies service.db`roles
    ensures target in service.db.roles
    ensures service.db.roles[target].data.name == adminRole
    ensures Listed(service.db.roles[target]) == Listed(old(service.db.roles)[target])
  {
    r := service.Remove(id, actor, adminRole, now);
  }
}
