/** `UsersService`: user creation and self-registration with a duplicate
    email check, paging, lookup, update, protected removal, and the refresh
    token kept on the user. Every exception a method throws inside its
    try/catch is rethrown as BadRequest. */
module UsersService {
  import opened Common
  import opened Store
  import opened Entities
  import Pagination

  /** The body of an administrator's create request. */
  datatype CreateUserInput = CreateUserInput(
    name: string, email: string, password: string, age: int, gender: string,
    address: string, role: Id, company: CompanyRef)

  /** The body of a public registration; it carries no role. */
  datatype RegisterInput = RegisterInput(
    name: string, email: string, password: string, age: int, gender: string, address: string)

  /** The body of an update: the target `_id`, the email (always queried by
      the duplicate check) and the profile fields the caller chose to send. */
  datatype UserPatch = UserPatch(
    id: Id, email: string, name: Option<string>, age: Option<int>, gender: Option<string>,
    address: Option<string>, role: Option<Id>, company: Option<CompanyRef>)

  /** Some stored user, deleted or not (`findOne` sees both), has the email. */
  predicate EmailTaken(users: Table<User>, email: string) {
    exists id :: id in users && users[id].data.profile.email == email
  }

  /** No two stored users share an email. */
  predicate UniqueEmails(users: Table<User>) {
    forall a, b :: a in users && b in users && a != b ==>
      users[a].data.profile.email != users[b].data.profile.email
  }

  /** Adding a user whose email nobody holds keeps emails unique. */
  lemma InsertUnusedEmail(users: Table<User>, id: Id, u: User, who: Option<Actor>, now: Time)
    requires UniqueEmails(users) && id !in users && !EmailTaken(users, u.profile.email)
    ensures UniqueEmails(Insert(users, id, u, who, now))
  {
  }

  /** The update's merge: the fields sent overwrite the stored ones; password
      and refresh token are never touched. */
  function ApplyPatch(p: UserPatch, u: User): (r: User)
    ensures r.password == u.password && r.refreshToken == u.refreshToken
    ensures r.profile.email == p.email
    ensures p.name.Some? ==> r.profile.name == p.name.value
    ensures p.name.None? ==> r.profile.name == u.profile.name
    ensures p.age.Some? ==> r.profile.age == p.age.value
    ensures p.age.None? ==> r.profile.age == u.profile.age
    ensures p.gender.Some? ==> r.profile.gender == p.gender.value
    ensures p.gender.None? ==> r.profile.gender == u.profile.gender
    ensures p.address.Some? ==> r.profile.address == p.address.value
    ensures p.address.None? ==> r.profile.address == u.profile.address
    ensures p.role.Some? ==> r.profile.role == p.role
    ensures p.role.None? ==> r.profile.role == u.profile.role
    ensures p.company.Some? ==> r.profile.company == p.company
    ensures p.company.None? ==> r.profile.company == u.profile.company
    ensures p == UserPatch(p.id, u.profile.email, None, None, None, None, None, None) ==> r == u
  {
    u.(profile := Profile(
      p.name.GetOr(u.profile.name),
      p.email,
      p.age.GetOr(u.profile.age),
      p.gender.GetOr(u.profile.gender),
      p.address.GetOr(u.profile.address),
      if p.role.Some? then p.role else u.profile.role,
      if p.company.Some? then p.company else u.profile.company))
  }

  /** Updating a user to an email nobody holds keeps emails unique. */
  lemma UpdateToUnusedEmail(users: Table<User>, p: UserPatch, who: Actor)
    requires UniqueEmails(users) && !EmailTaken(users, p.email)
    ensures UniqueEmails(UpdateOne(users, p.id, u => ApplyPatch(p, u), who))
  {
    var users' := UpdateOne(users, p.id, u => ApplyPatch(p, u), who);
    forall a, b | a in users' && b in users' && a != b
      ensures users'[a].data.profile.email != users'[b].data.profile.email
    {
      if a == p.id {
        assert users'[a].data.profile.email == p.email;
        assert users'[b] == users[b];
      } else if b == p.id {
        assert users'[b].data.profile.email == p.email;
        assert users'[a] == users[a];
      }
    }
  }

  class UsersService {
    const db: Database

    constructor (db: Database)
      ensures this.db == db
    {
      this.db := db;
    }

    /** `create`: rejected when any stored user has the email; otherwise one
        user is added with the hashed password and the actor as creator, and
        the new document is returned.
        `hash` is bcrypt, `id` the id MongoDB assigns, `now` the clock. */
    method Create(info: CreateUserInput, actor: Actor, hash: string -> Hash, id: Id, now: Time)
        returns (r: Result<(Id, Doc<User>)>)
      requires IsFreshId(id, db.users)
      modifies db`users
      ensures r.Err? <==> EmailTaken(old(db.users), info.email)
      ensures r.Err? ==> r.error == BadRequest && db.users == old(db.users)
      ensures r.Ok? ==> db.users == Insert(old(db.users), id,
                User(Profile(info.name, info.email, info.age, info.gender, info.address,
                             Some(info.role), Some(info.company)),
                     hash(info.password), None),
                Some(actor), now)
      ensures r.Ok? ==> id in db.users && r.value == (id, db.users[id])
      ensures UniqueEmails(old(db.users)) ==> UniqueEmails(db.users)
    {
      var existing := FindOneWhere(db.users, (u: User) => u.profile.email == info.email);
      if existing.Some? {
        return Err(BadRequest);
      }
      var hashed := hash(info.password);
      var user := User(Profile(info.name, info.email, info.age, info.gender, info.address,
                               Some(info.role), Some(info.company)), hashed, None);
      if UniqueEmails(db.users) {
        InsertUnusedEmail(db.users, id, user, Some(actor), now);
      }
      db.users := Insert(db.users, id, user, Some(actor), now);
      return Ok((id, db.users[id]));
    }

    /** `register`: the same duplicate check; the password is replaced by its
        hash and the role is the id of a role named `userRole` (absent when
        there is none); there is no creator stamp. The new document is
        returned. */
    method Register(input: RegisterInput, userRole: string, hash: string -> Hash, id: Id, now: Time)
        returns (r: Result<(Id, Doc<User>)>)
      requires IsFreshId(id, db.users)
      modifies db`users
      ensures r.Err? <==> EmailTaken(old(db.users), input.email)
      ensures r.Err? ==> r.error == BadRequest && db.users == old(db.users)
      ensures r.Ok? ==> && db.users.Keys == old(db.users).Keys + {id}
                        && r.value == (id, db.users[id])
                        && (forall k :: k in old(db.users) ==> db.users[k] == old(db.users)[k])
                        && Listed(db.users[id]) && db.users[id].audit.createdBy == None
      ensures r.Ok? ==> var u := db.users[id].data;
                        && u.password == hash(input.password)
                        && u.profile.email == input.email && u.profile.name == input.name
                        && u.profile.age == input.age && u.profile.gender == input.gender
                        && u.profile.address == input.address
                        && u.profile.company == None
                        && (u.profile.role.Some? ==>
                              u.profile.role.value in db.roles && db.roles[u.profile.role.value].data.name == userRole)
                        && (u.profile.role.None? <==> forall k :: k in db.roles ==> db.roles[k].data.name != userRole)
      ensures UniqueEmails(old(db.users)) ==> UniqueEmails(db.users)
    {
      var existing := FindOneWhere(db.users, (u: User) => u.profile.email == input.email);
      if existing.Some? {
        return Err(BadRequest);
      }
      var hashed := hash(input.password);
      var role := FindOneWhere(db.roles, (x: Role) => x.name == userRole);
      var user := User(Profile(input.name, input.email, input.age, input.gender, input.address, role, None),
                       hashed, None);
      if UniqueEmails(db.users) {
        InsertUnusedEmail(db.users, id, user, None, now);
      }
      db.users := Insert(db.users, id, user, None, now);
      return Ok((id, db.users[id]));
    }

    /** `findAll`: the page metadata for the users the filter selects, or
        BadRequest when the skip the page asks for is negative. */
    method FindAll(current: int, limit: Option<int>, filter: User -> bool) returns (r: Result<Pagination.Meta>)
      ensures r.Err? <==> Pagination.SkipRejected(current, limit)
      ensures r.Err? ==> r.error == BadRequest
      ensures r.Ok? ==> r.value.total == |Matching(db.users, filter)|
      ensures r.Ok? ==> r.value == Pagination.PageMeta(current, limit, Count(db.users, filter))
    {
      if Pagination.SkipRejected(current, limit) {
        return Err(BadRequest);
      }
      return Ok(Pagination.PageMeta(current, limit, Count(db.users, filter)));
    }

    /** `findOne`: a malformed id is rejected; otherwise the user with that
        id, if stored, with the password left out. The refresh token and the
        audit fields are not deselected, so they are part of the answer. */
    method FindOne(id: Id) returns (r: Result<Option<UserView>>)
      ensures !IsObjectId(id) <==> r == Err(BadRequest)
      ensures IsObjectId(id) && id in db.users ==>
                && r.Ok? && r.value.Some?
                && r.value.value.profile == db.users[id].data.profile
                && r.value.value.refreshToken == db.users[id].data.refreshToken
                && r.value.value.audit == db.users[id].audit
      ensures IsObjectId(id) && id !in db.users ==> r == Ok(None)
    {
      if !IsObjectId(id) {
        return Err(BadRequest);
      }
      if id in db.users {
        var u := db.users[id];
        return Ok(Some(UserView(u.data.profile, u.data.refreshToken, u.audit)));
      }
      return Ok(None);
    }

    /** `update`: rejected when any stored user (the target included) already
        has the patch's email, or when the target id is malformed (the cast of
        the `_id` filter fails); otherwise the patch is merged and the actor
        stamped as updater. */
    method Update(patch: UserPatch, actor: Actor) returns (r: Result<()>)
      modifies db`users
      ensures r.Err? <==> EmailTaken(old(db.users), patch.email) || !IsObjectId(patch.id)
      ensures r.Err? ==> r.error == BadRequest && db.users == old(db.users)
      ensures r.Ok? ==> db.users == UpdateOne(old(db.users), patch.id, u => ApplyPatch(patch, u), actor)
      ensures UniqueEmails(old(db.users)) ==> UniqueEmails(db.users)
    {
      var existing := FindOneWhere(db.users, (u: User) => u.profile.email == patch.email);
      if existing.Some? {
        return Err(BadRequest);
      }
      if !IsObjectId(patch.id) {
        return Err(BadRequest);
      }
      if UniqueEmails(db.users) {
        UpdateToUnusedEmail(db.users, patch, actor);
      }
      db.users := UpdateOne(db.users, patch.id, u => ApplyPatch(patch, u), actor);
      return Ok(());
    }

    /** `remove`: a malformed id is rejected, and so is the user whose email
        is the configured admin email; otherwise the actor is stamped as
        deleter and the user soft-deleted. Returns how many were deleted. */
    method Remove(id: Id, actor: Actor, adminEmail: Option<string>, now: Time) returns (r: Result<nat>)
      modifies db`users
      ensures !IsObjectId(id) ==> r == Err(BadRequest)
      ensures IsObjectId(id) && id in old(db.users) && Some(old(db.users)[id].data.profile.email) == adminEmail ==>
                r == Err(BadRequest)
      ensures r.Err? ==> r.error == BadRequest && db.users == old(db.users)
      ensures IsObjectId(id) && !(id in old(db.users) && Some(old(db.users)[id].data.profile.email) == adminEmail) ==>
                r.Ok? && (db.users, r.value) == StampAndDelete(old(db.users), id, actor, now)
    {
      if !IsObjectId(id) {
        return Err(BadRequest);
      }
      if id in db.users && Some(db.users[id].data.profile.email) == adminEmail {
        return Err(BadRequest);
      }
      var (users', deleted) := StampAndDelete(db.users, id, actor, now);
      db.users := users';
      return Ok(deleted);
    }

    /** `updateUserToken`: the refresh token of the user becomes `token`
        (a malformed id fails the cast). */
    method UpdateUserToken(token: string, id: Id) returns (r: Result<()>)
      modifies db`users
      ensures r.Err? <==> !IsObjectId(id)
      ensures r.Err? ==> r.error == BadRequest && db.users == old(db.users)
      ensures r.Ok? ==> db.users == Modify(old(db.users), id, (u: User) => u.(refreshToken := Some(token)))
      ensures r.Ok? && id in db.users ==> db.users[id].data.refreshToken == Some(token)
    {
      if !IsObjectId(id) {
        return Err(BadRequest);
      }
      db.users := Modify(db.users, id, (u: User) => u.(refreshToken := Some(token)));
      return Ok(());
    }

    /** `findUserByRefreshToken`: a user whose stored refresh token is
        `token`, if there is one. */
    method FindUserByRefreshToken(token: string) returns (r: Option<Id>)
      ensures r.Some? ==> r.value in db.users && db.users[r.value].data.refreshToken == Some(token)
      ensures r.None? <==> forall k :: k in db.users ==> db.users[k].data.refreshToken != Some(token)
    {
      r := FindOneWhere(db.users, (u: User) => u.refreshToken == Some(token));
    }
  }

  /** Storing a token and then looking it up finds a user holding it. */
  method RefreshTokenRoundTrip(service: UsersService, token: string, id: Id) returns (found: Option<Id>)
    requires IsObjectId(id) && id in service.db.users
    modifies service.db`users
    ensures found.Some? && found.value in service.db.users
    ensures service.db.users[found.value].data.refreshToken == Some(token)
  {
    var stored := service.UpdateUserToken(token, id);
    found := service.FindUserByRefreshToken(token);
  }
}
