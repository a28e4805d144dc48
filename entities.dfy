/** The documents of the seven collections, and the database that holds them.
    Field names follow the Mongoose schemas; `method` and `module` are Dafny
    keywords and become `httpMethod` and `moduleName`. */
module Entities {
  import opened Common
  import opened Store

  /** A bcrypt digest. Plain passwords are `string`s, so a stored password can
      only come out of the hash function. */
  datatype Hash = Hash(digest: string)

  /** The company sub-document embedded in a user. */
  datatype CompanyRef = CompanyRef(id: Id, name: string)

  /** A user's personal data: everything except the password and the
      refresh token. */
  datatype Profile = Profile(
    name: string,
    email: string,
    age: int,
    gender: string,
    address: string,
    role: Option<Id>,
    company: Option<CompanyRef>)

  datatype User = User(profile: Profile, password: Hash, refreshToken: Option<string>)

  /** What a lookup that deselects only the password returns: the profile,
      the stored refresh token and the audit fields. */
  datatype UserView = UserView(profile: Profile, refreshToken: Option<string>, audit: Audit)

  datatype Role = Role(name: string, description: string, isActive: bool, permissions: seq<Id>)

  datatype Permission = Permission(name: string, apiPath: string, httpMethod: string, moduleName: string)

  datatype HistoryEntry = HistoryEntry(status: string, updatedAt: Time, updatedBy: Actor)

  datatype Resume = Resume(
    email: string,
    userId: Id,
    url: string,
    companyId: Id,
    jobId: Id,
    status: string,
    history: seq<HistoryEntry>)

  datatype Subscriber = Subscriber(name: string, email: string, skills: seq<string>)

  /** The company sub-document embedded in a job. */
  datatype JobCompany = JobCompany(id: Id, name: string, logo: string)

  datatype Job = Job(
    name: string,
    skills: seq<string>,
    company: JobCompany,
    location: string,
    salary: nat,
    quantity: int,
    level: string,
    description: string,
    startDate: Time,
    endDate: Time,
    isActive: bool)

  datatype Company = Company(name: string, address: string, description: string, logo: string)

  /** The MongoDB database: one soft-delete table per collection. */
  class Database {
    var users: Table<User>
    var roles: Table<Role>
    var permissions: Table<Permission>
    var resumes: Table<Resume>
    var subscribers: Table<Subscriber>
    var jobs: Table<Job>
    var companies: Table<Company>

    constructor ()
      ensures users == map[] && roles == map[] && permissions == map[]
      ensures resumes == map[] && subscribers == map[] && jobs == map[] && companies == map[]
    {
      users, roles, permissions := map[], map[], map[];
      resumes, subscribers, jobs, companies := map[], map[], map[], map[];
    }
  }
}
