/** `DatabasesService.onModuleInit`: on start-up, when the init flag is set,
    each of the permissions, roles and users collections that holds no live
    document is seeded with sample data. The three counts are taken before
    anything is inserted. */
module DatabasesService {
  import opened Common
  import opened Store
  import opened Entities

  /** The configuration and constants the seeding reads: the `SHOULD_INIT`
      and `INIT_PASSWORD` environment values, and the role names and sample
      permissions of the application's constants file. */
  datatype Config = Config(
    shouldInit: Option<string>,
    initPassword: string,
    adminRole: string,
    userRole: string,
    initPermissions: seq<Permission>)

  /** The fresh ids MongoDB assigns to the inserted documents. */
  datatype SeedIds = SeedIds(permissions: seq<Id>, roles: seq<Id>, users: seq<Id>)

  const ADMIN_DESCRIPTION: string := "Admin th\U{00EC} full quy\U{1EC1}n :v"
  const USER_DESCRIPTION: string := "Ng\U{01B0}\U{1EDD}i d\U{00F9}ng/\U{1EE8}ng vi\U{00EA}n s\U{1EED} d\U{1EE5}ng h\U{1EC7} th\U{1ED1}ng"

  const ADMIN_EMAIL: string := "admin@gmail.com"
  const SECOND_ADMIN_EMAIL: string := "luongphong@gmail.com"
  const USER_EMAIL: string := "user@gmail.com"

  /** `find()` with no filter: how many documents of a collection are live. */
  function Live<T>(t: Table<T>): nat {
    Count(t, (x: T) => true)
  }

  /** A collection counts zero exactly when none of its documents is live. */
  lemma LiveZero<T>(t: Table<T>)
    ensures Live(t) == 0 <==> forall k :: k in t ==> !Listed(t[k])
  {
    var live := Matching(t, (x: T) => true);
    if Live(t) > 0 {
      var k :| k in live;
    } else {
      assert live == {};
    }
  }

  /** A live document makes the count positive. */
  lemma LiveWitness<T>(t: Table<T>, k: Id)
    requires k in t && Listed(t[k])
    ensures Live(t) > 0
  {
    assert k in Matching(t, (x: T) => true);
  }

  /** The two sample roles: the administrator role holds `permissions`, the
      user role none; both are active. */
  function SeedRoles(config: Config, permissions: seq<Id>): (rs: seq<Role>)
    ensures |rs| == 2
    ensures rs[0] == Role(config.adminRole, ADMIN_DESCRIPTION, true, permissions)
    ensures rs[1] == Role(config.userRole, USER_DESCRIPTION, true, [])
  {
    [Role(config.adminRole, ADMIN_DESCRIPTION, true, permissions),
     Role(config.userRole, USER_DESCRIPTION, true, [])]
  }

  function SampleUser(name: string, email: string, age: int, password: Hash, role: Option<Id>): User {
    User(Profile(name, email, age, "MALE", "VietNam", role, None), password, None)
  }

  /** The three sample users: two administrators and one ordinary user, all
      with the hashed initial password. */
  function SeedUsers(password: Hash, adminRole: Option<Id>, userRole: Option<Id>): (us: seq<User>)
    ensures |us| == 3
    ensures us[0].profile.email == ADMIN_EMAIL && us[1].profile.email == SECOND_ADMIN_EMAIL
    ensures us[2].profile.email == USER_EMAIL
    ensures us[0].profile.role == adminRole && us[1].profile.role == adminRole && us[2].profile.role == userRole
    ensures forall i :: 0 <= i < 3 ==> us[i].password == password && us[i].refreshToken == None
  {
    [SampleUser("I'm admin", ADMIN_EMAIL, 69, password, adminRole),
     SampleUser("I'm Thanh Phong", SECOND_ADMIN_EMAIL, 96, password, adminRole),
     SampleUser("I'm normal user", USER_EMAIL, 69, password, userRole)]
  }

  /** The role reference a `findOne` by name yields (its id, or nothing),
      read against `roles`. */
  predicate RoleNamed(roles: Table<Role>, role: Option<Id>, name: string) {
    && (role.Some? ==> role.value in roles && roles[role.value].data.name == name)
    && (role.None? <==> forall k :: k in roles ==> roles[k].data.name != name)
  }

  /** The role step's effect on the roles: exactly two live roles added
      under `ids`, the user role as sampled and the administrator role
      holding every permission live in `permissions`, each once. */
  ghost predicate RolesSeeded(before: Table<Role>, after: Table<Role>, ids: seq<Id>, config: Config,
                        permissions: Table<Permission>) {
    && |ids| == 2
    && (forall k :: k in after <==> k in before || k in ids)
    && (forall k :: k in before ==> after[k] == before[k])
    && Listed(after[ids[0]]) && Listed(after[ids[1]])
    && after[ids[1]].data == Role(config.userRole, USER_DESCRIPTION, true, [])
    && after[ids[0]].data.name == config.adminRole && after[ids[0]].data.isActive
    && Distinct(after[ids[0]].data.permissions)
    && (forall p :: p in after[ids[0]].data.permissions ==> p in permissions && Listed(permissions[p]))
    && (forall p :: p in permissions && Listed(permissions[p]) ==> p in after[ids[0]].data.permissions)
  }

  /** A live sample user under `id` with the given password hash and email,
      whose role reference is what a lookup of `roleName` yields. */
  predicate SampleUserAt(users: Table<User>, id: Id, password: Hash, email: string,
                         roles: Table<Role>, roleName: string) {
    && id in users && Listed(users[id])
    && users[id].data.password == password && users[id].data.profile.email == email
    && RoleNamed(roles, users[id].data.profile.role, roleName)
  }

  /** The user step's effect on the users: exactly three users added under
      `ids`, two administrators and one ordinary user. */
  ghost predicate UsersSeeded(before: Table<User>, after: Table<User>, ids: seq<Id>, config: Config,
                        password: Hash, roles: Table<Role>) {
    && |ids| == 3
    && (forall k :: k in after <==> k in before || k in ids)
    && (forall k :: k in before ==> after[k] == before[k])
    && SampleUserAt(after, ids[0], password, ADMIN_EMAIL, roles, config.adminRole)
    && SampleUserAt(after, ids[1], password, SECOND_ADMIN_EMAIL, roles, config.adminRole)
    && SampleUserAt(after, ids[2], password, USER_EMAIL, roles, config.userRole)
  }

  /** Distinct ids, none used in the collection. */
  predicate FreshIds<T>(ids: seq<Id>, t: Table<T>) {
    Distinct(ids) && forall i :: 0 <= i < |ids| ==> ids[i] !in t
  }

  /** Inserting the sample users under fresh ids has the user step's effect. */
  lemma SeedUsersPlaced(before: Table<User>, ids: seq<Id>, users: seq<User>, now: Time, config: Config,
                        password: Hash, roles: Table<Role>, adminRole: Option<Id>, userRole: Option<Id>)
    requires |ids| == 3 && FreshIds(ids, before)
    requires users == SeedUsers(password, adminRole, userRole)
    requires RoleNamed(roles, adminRole, config.adminRole) && RoleNamed(roles, userRole, config.userRole)
    ensures UsersSeeded(before, InsertMany(before, ids, users, now), ids, config, password, roles)
    ensures Live(InsertMany(before, ids, users, now)) > 0
  {
    var after := InsertMany(before, ids, users, now);
    LiveWitness(after, ids[0]);
    assert after[ids[0]].data == users[0] && after[ids[1]].data == users[1] && after[ids[2]].data == users[2];
  }

  class DatabasesService {
    const db: Database

    constructor (db: Database)
      ensures this.db == db
    {
      this.db := db;
    }

    /** `onModuleInit`. `hash` is the bcrypt hash, `now` the clock. */
    method OnModuleInit(config: Config, hash: string -> Hash, ids: SeedIds, now: Time)
      requires Truthy(config.shouldInit) && Live(db.permissions) == 0 ==>
                 |ids.permissions| == |config.initPermissions| && FreshIds(ids.permissions, db.permissions)
      requires Truthy(config.shouldInit) && Live(db.roles) == 0 ==> |ids.roles| == 2 && FreshIds(ids.roles, db.roles)
      requires Truthy(config.shouldInit) && Live(db.users) == 0 ==> |ids.users| == 3 && FreshIds(ids.users, db.users)
      modifies db`permissions, db`roles, db`users
      // Nothing is seeded unless the flag is truthy.
      ensures !Truthy(config.shouldInit) ==>
                db.permissions == old(db.permissions) && db.roles == old(db.roles) && db.users == old(db.users)
      // Permissions: the sample permissions exactly when none was live.
      ensures Truthy(config.shouldInit) && Live(old(db.permissions)) == 0 ==>
                db.permissions == InsertMany(old(db.permissions), ids.permissions, config.initPermissions, now)
      ensures !(Truthy(config.shouldInit) && Live(old(db.permissions)) == 0) ==> db.permissions == old(db.permissions)
      // Roles: the two sample roles exactly when none was live; the
      // administrator role holds every live permission, each once.
      ensures Truthy(config.shouldInit) && Live(old(db.roles)) == 0 ==>
                RolesSeeded(old(db.roles), db.roles, ids.roles, config, db.permissions)
      ensures !(Truthy(config.shouldInit) && Live(old(db.roles)) == 0) ==> db.roles == old(db.roles)
      // Users: the three sample users exactly when none was live, with the
      // role found by name (absent when no role has that name).
      ensures Truthy(config.shouldInit) && Live(old(db.users)) == 0 ==>
                UsersSeeded(old(db.users), db.users, ids.users, config, hash(config.initPassword), db.roles)
      ensures !(Truthy(config.shouldInit) && Live(old(db.users)) == 0) ==> db.users == old(db.users)
      // Afterwards every collection that was seeded has a live document.
      ensures Truthy(config.shouldInit) ==>
                Live(db.roles) > 0 && Live(db.users) > 0
                && (Live(old(db.permissions)) > 0 || config.initPermissions != [] ==> Live(db.permissions) > 0)
    {
      if Truthy(config.shouldInit) {
        var countUsers := Live(db.users);
        var countPermissions := Live(db.permissions);
        var countRoles := Live(db.roles);
        if countPermissions == 0 {
          SeedPermissions(config, ids, now);
        }
        if countRoles == 0 {
          SeedRoleDocs(config, ids, now);
        }
        if countUsers == 0 {
          SeedUserDocs(config, hash, ids, now);
        }
      }
    }

    /** The permissions step: the sample permissions go in under their ids. */
    method SeedPermissions(config: Config, ids: SeedIds, now: Time)
      requires |ids.permissions| == |config.initPermissions| && FreshIds(ids.permissions, db.permissions)
      modifies db`permissions
      ensures db.permissions == InsertMany(old(db.permissions), ids.permissions, config.initPermissions, now)
      ensures config.initPermissions != [] ==> Live(db.permissions) > 0
    {
      db.permissions := InsertMany(db.permissions, ids.permissions, config.initPermissions, now);
      if config.initPermissions != [] {
        LiveWitness(db.permissions, ids.permissions[0]);
      }
    }

    /** The roles step: the two sample roles, the administrator one holding
        the ids of the permissions live at this moment. */
    method SeedRoleDocs(config: Config, ids: SeedIds, now: Time)
      requires |ids.roles| == 2 && FreshIds(ids.roles, db.roles)
      modifies db`roles
      ensures RolesSeeded(old(db.roles), db.roles, ids.roles, config, db.permissions)
      ensures Live(db.roles) > 0
    {
      var permissions := ListedIds(db.permissions);
      var roles := SeedRoles(config, permissions);
      db.roles := InsertMany(db.roles, ids.roles, roles, now);
      assert db.roles[ids.roles[0]].data == roles[0];
      assert db.roles[ids.roles[1]].data == roles[1];
      LiveWitness(db.roles, ids.roles[0]);
    }

    /** The users step: the three sample users, their roles found by name. */
    method SeedUserDocs(config: Config, hash: string -> Hash, ids: SeedIds, now: Time)
      requires |ids.users| == 3 && FreshIds(ids.users, db.users)
      modifies db`users
      ensures UsersSeeded(old(db.users), db.users, ids.users, config, hash(config.initPassword), db.roles)
      ensures Live(db.users) > 0
    {
      var adminRole := FindOneWhere(db.roles, (x: Role) => x.name == config.adminRole);
      var userRole := FindOneWhere(db.roles, (x: Role) => x.name == config.userRole);
      assert RoleNamed(db.roles, adminRole, config.adminRole);
      assert RoleNamed(db.roles, userRole, config.userRole);
      var users := SeedUsers(hash(config.initPassword), adminRole, userRole);
      SeedUsersPlaced(db.users, ids.users, users, now, config, hash(config.initPassword), db.roles, adminRole, userRole);
      db.users := InsertMany(db.users, ids.users, users, now);
    }
  }

  /** Running the seeding twice has the effect of running it once: each
      collection with no live document is seeded by the first run, and the
      second run changes nothing: it finds roles and users populated, and
      permissions either populated or, with no sample permissions, seeds
      nothing into them again. */
  method SeedTwice(service: DatabasesService, config: Config, hash: string -> Hash, ids: SeedIds, now: Time)
    requires Truthy(config.shouldInit)
    requires Live(service.db.permissions) == 0 ==>
               |ids.permissions| == |config.initPermissions| && FreshIds(ids.permissions, service.db.permissions)
    requires Live(service.db.roles) == 0 ==> |ids.roles| == 2 && FreshIds(ids.roles, service.db.roles)
    requires Live(service.db.users) == 0 ==> |ids.users| == 3 && FreshIds(ids.users, service.db.users)
    modifies service.db`permissions, service.db`roles, service.db`users
    ensures Live(old(service.db.permissions)) == 0 ==>
              service.db.permissions == InsertMany(old(service.db.permissions), ids.permissions, config.initPermissions, now)
    ensures Live(old(service.db.permissions)) > 0 ==> service.db.permissions == old(service.db.permissions)
    ensures Live(old(service.db.roles)) == 0 ==>
              RolesSeeded(old(service.db.roles), service.db.roles, ids.roles, config, service.db.permissions)
    ensures Live(old(service.db.roles)) > 0 ==> service.db.roles == old(service.db.roles)
    ensures Live(old(service.db.users)) == 0 ==>
              UsersSeeded(old(service.db.users), service.db.users, ids.users, config, hash(config.initPassword), service.db.roles)
    ensures Live(old(service.db.users)) > 0 ==> service.db.users == old(service.db.users)
  {
    service.OnModuleInit(config, hash, ids, now);
    service.OnModuleInit(config, hash, ids, now);
  }
}
