# Recruitment backend: a verified model

This project models the business core of a NestJS recruitment backend. The
backend stores users, roles, permissions, companies, jobs, resumes and job-alert
subscribers in MongoDB, under a soft-delete plugin. The model covers four parts:

- **Request authorisation.** The global JWT guard admits a request, or rejects
  it with Unauthorized or Forbidden. It takes the public and skip-permission
  flags, the authentication outcome and the caller's (apiPath, method)
  permission list. The route table of the auth, users, roles and mail
  controllers feeds the guard.
- **The services.** Each collection is a map from id to a document that holds
  the business data and an audit record: `createdBy`, `updatedBy`,
  `deletedBy`, `isDeleted` and `deletedAt`. The services are classes over a
  shared `Database` object whose collections they update in place.
  - The model covers the duplicate checks before an insert, the protected
    admin user and admin role, and the resume status history.
  - It also covers the subscriber upsert by email, the job end-date check,
    stamp-then-soft-delete removal and the pagination metadata that every
    `findAll` returns.
- **First-boot seeding.** The seeding is gated by counts, and each empty
  collection is filled independently.
- **The weekly job-alert mail.** Jobs are matched to subscribers by shared
  skills, salaries get thousands separators, and messages are delivered in
  order to an outbox, stopping at the first rejected send.

Modules:

- `Common` and `Store` hold the option, result and id vocabulary and the
  soft-delete collection.
- `Entities` holds the records and the `Database` class.
- `Pagination`, `JwtAuthGuard`, `Routes`, `SalaryFormat` and `Mail` cover the
  pagination, the guard, the route table, the salary text and the mail.
- There is one module per service.

Some values come from outside the program and are parameters of the model:

- the clock;
- the ids MongoDB assigns (each required to be unused);
- the bcrypt hash (a function `string -> Hash`);
- the configuration values (`SHOULD_INIT`, `INIT_PASSWORD`, the admin email,
  the role names and the sample permissions);
- the mail transport's accept or reject decision.

Three assumptions about the unseen libraries are stated, not proved. All
three are written down in `Store`:

- `find` and `count` skip soft-deleted documents, while `findOne`, `findById`
  and `updateOne` see every document.
- A malformed id in an `_id` filter makes the query fail with a cast error.
  The service's `catch` turns that error into BadRequest.
- MongoDB refuses a negative `skip`, so a `findAll` whose page asks for one
  fails, and its `catch` answers BadRequest.

## Model

| member | source | states |
|---|---|---|
| JwtAuthGuard.FindPermission | src/auth/jwt-auth.guard.ts:51-56 | the index of the first entry whose apiPath and method equal the route template and HTTP method; none exactly when no entry matches |
| JwtAuthGuard.HandleRequest | src/auth/jwt-auth.guard.ts:29-65 | an auth error is rethrown as is; a missing user is Unauthorized; otherwise the only rejection is Forbidden; an admitted request returns the user unchanged |
| JwtAuthGuard.CanActivate | src/auth/jwt-auth.guard.ts:18-27 | a public handler or class is admitted with no user; otherwise the verdict is that of the strategy's outcome through handleRequest |
| JwtAuthGuard.PublicIgnoresToken | src/auth/jwt-auth.guard.ts:19-25 | a public route gets the same admission whatever the authentication produced |
| JwtAuthGuard.UnauthorizedBeforeForbidden | src/auth/jwt-auth.guard.ts:37-44 | a failed authentication is rejected with its own error or Unauthorized, never Forbidden, whatever the permissions and flags |
| JwtAuthGuard.AdmitIff | src/auth/jwt-auth.guard.ts:47-64 | an authenticated request is admitted iff some entry matches template and method exactly, or the template starts with "/api/v1/auth", or the handler skips permissions; otherwise it is Forbidden |
| JwtAuthGuard.AbsentPermissionsAreEmpty | src/auth/jwt-auth.guard.ts:50 | a user with no permission list gets the same verdict as one with an empty list |
| JwtAuthGuard.ExactMatchOnly | src/auth/jwt-auth.guard.ts:51-56 | an entry whose path or method differs from the request's does not match, even when one path is a prefix of the other |
| JwtAuthGuard.MoreEntriesNeverForbid | src/auth/jwt-auth.guard.ts:51-62 | adding entries to a permission list never turns an admitted request into a rejected one |
| JwtAuthGuard.AuthPrefixBypass | src/auth/jwt-auth.guard.ts:58 | any template that begins with "/api/v1/auth", such as "/api/v1/authors", is admitted with no permission entries |
| Routes.Guard | src/auth/auth.controller.ts:21-67 | a route flagged public is admitted with no user; a protected route with no authenticated user is Unauthorized |
| Routes.AuthControllerNeedsNoPermission | src/auth/auth.controller.ts:21-67 | every auth handler admits any authenticated user; login, register and refresh admit every request |
| Routes.ProtectedRoutesNeedAnEntry | src/users/users.controller.ts:19-61 | each protected users and roles handler is Forbidden to a user with no permission entries |
| Pagination.EffectiveLimit | src/users/users.service.ts:100 | the page size applied is 10 when the limit is absent (NaN) or 0, and the limit otherwise; it is never 0 |
| Pagination.Offset | src/users/users.service.ts:99 | the skip count is (current − 1) × limit when a limit was given and absent (NaN) otherwise; it is non-negative for a page number from 1 and a non-negative limit |
| Pagination.SkipRejectedIff | src/users/users.service.ts:99-107 | the skip is refused exactly when a limit is given and either the page number is below 1 with a positive limit or above 1 with a negative one |
| Pagination.OffsetSelectsPage | src/users/users.service.ts:99-100 | with a positive page size, the items kept after skipping the offset for page `current` are exactly the items on page `current`, both directions |
| Pagination.OffsetWithinPages | src/users/users.service.ts:99-103 | the requested page holds at least one item iff its number is at most the page count the `meta` object reports |
| Pagination.CeilDiv | src/users/users.service.ts:103 | the least integer not below total divided by the limit, for either sign of the limit |
| Pagination.PageMeta | src/users/users.service.ts:114-120 | meta echoes the page number and the raw limit, reports the total, and counts pages as the ceiling of total over the effective limit |
| Pagination.PagesCoverItems | src/users/users.service.ts:102-103 | with a positive page size every item falls on an existing page and the last page is not empty |
| Pagination.NoItemsNoPages | src/users/users.service.ts:103 | no matching documents means zero pages |
| Store.Insert | src/users/users.service.ts:47-62 | a create adds exactly one live document under the new id, with the given creator and time, and keeps all others |
| Store.InsertMany | src/databases/databases.service.ts:41 | the i-th document goes in live under the i-th fresh id; nothing else changes |
| Store.UpdateOne | src/companies/companies.service.ts:83-100 | the matched document's data goes through the patch and only its updatedBy stamp changes; every other document is unchanged |
| Store.Modify | src/users/users.service.ts:225-231 | the matched document's data changes and its audit record does not |
| Store.SoftDelete | src/companies/companies.service.ts:115-117 | a live document is flagged deleted with the time and counts 1; an already deleted or missing one counts 0 and is unchanged |
| Store.StampAndDelete | src/companies/companies.service.ts:102-121 | a remove leaves the document deleted, with deletedBy set to the actor and its data, createdBy, createdAt and updatedBy kept; it counts 1 only if it was live |
| Store.RemoveTwice | src/companies/companies.service.ts:102-121 | removing twice reports 0 the second time and keeps the first deletion time; only deletedBy changes |
| Store.Matching | src/permissions/permissions.service.ts:58-59 | the ids a filtered find returns are exactly the live documents satisfying the filter |
| Store.FindOneWhere | src/users/users.service.ts:40-45 | a document satisfying the query, deleted or not, if one exists; none exactly when no document does |
| Store.ListedIds | src/databases/databases.service.ts:47 | every live document's id, each once |
| UsersService.InsertUnusedEmail | src/users/users.service.ts:40-62 | adding a user with an email nobody holds keeps emails unique |
| UsersService.ApplyPatch | src/users/users.service.ts:168-185 | the update sets the email; each of name, age, gender, address, role and company takes the value sent, or keeps its stored value when not sent; password and refresh token are never touched; an empty patch changes nothing |
| UsersService.UpdateToUnusedEmail | src/users/users.service.ts:168-185 | updating to an email nobody holds keeps emails unique |
| UsersService.UsersService.Create | src/users/users.service.ts:35-67 | rejected with BadRequest iff some stored user has the email; otherwise exactly one user is added with the hashed password and the actor as creator, and that document is returned; unique emails are kept |
| UsersService.UsersService.Register | src/users/users.service.ts:69-91 | the same email rejection; on success exactly one user is added and returned, with the input's name, email, age, gender and address, the hashed password, no company, a role named as the user role (absent iff none) and no creator |
| UsersService.UsersService.FindAll | src/users/users.service.ts:93-126 | BadRequest exactly when the requested page needs a negative skip; otherwise meta.total is the number of live users matching the filter, and the rest of meta follows the pagination rules |
| UsersService.UsersService.FindOne | src/users/users.service.ts:128-142 | a malformed id is BadRequest; otherwise the stored user without the password, that is its profile, its refresh token and its audit fields (deleted or not), or nothing |
| UsersService.UsersService.Update | src/users/users.service.ts:165-189 | rejected iff any user, the target included, has the email or the id is malformed; otherwise merged with an updatedBy stamp; unique emails are kept |
| UsersService.UsersService.Remove | src/users/users.service.ts:191-223 | a malformed id or the configured admin email is BadRequest and nothing changes; otherwise stamp-then-soft-delete |
| UsersService.UsersService.UpdateUserToken | src/users/users.service.ts:225-231 | the user's refresh token becomes the given one, and nothing else changes |
| UsersService.UsersService.FindUserByRefreshToken | src/users/users.service.ts:233-244 | a user holding the token, or nothing exactly when no user holds it |
| UsersService.RefreshTokenRoundTrip | src/users/users.service.ts:225-244 | after storing a token for an existing user, looking it up finds a user holding it |
| RolesService.ApplyPatch | src/roles/roles.service.ts:108-111 | each of name, description, isActive and permissions takes the value sent, or keeps its stored value when not sent; an empty patch changes nothing |
| RolesService.UpdateMayDuplicateName | src/roles/roles.service.ts:100-107 | with the name check commented out, renaming a role to another's name breaks name uniqueness |
| RolesService.RolesService.Create | src/roles/roles.service.ts:20-44 | rejected iff a role has the name; otherwise one role is added with the actor as creator and only id and createdAt are returned; unique names are kept |
| RolesService.RolesService.FindAll | src/roles/roles.service.ts:46-79 | BadRequest exactly when the requested page needs a negative skip; otherwise meta.total is the number of live roles matching the filter, and the rest of meta follows the pagination rules |
| RolesService.RolesService.FindOne | src/roles/roles.service.ts:81-93 | BadRequest iff the id is malformed or matches no role; otherwise that role's whole document, audit fields included |
| RolesService.RolesService.Update | src/roles/roles.service.ts:95-115 | a malformed id is BadRequest; otherwise merged with an updatedBy stamp and no name check |
| RolesService.RolesService.Remove | src/roles/roles.service.ts:117-145 | BadRequest and no change iff the id is malformed, unknown or names the admin role; otherwise stamp-then-soft-delete, counting 1 iff the role was live |
| RolesService.AdminRoleSurvivesRemove | src/roles/roles.service.ts:123-128 | no removal changes whether the admin role is listed |
| PermissionsService.ApplyPatch | src/permissions/permissions.service.ts:103-116 | each of name, apiPath, method and module takes the value sent, or keeps its stored value when not sent; an empty patch changes nothing |
| PermissionsService.UpdateKeepingRoute | src/permissions/permissions.service.ts:103-116 | an update that sends no apiPath and no method keeps route pairs unique |
| PermissionsService.UpdateMayDuplicateRoute | src/permissions/permissions.service.ts:103-116 | with no re-check, moving a permission onto another's route pair breaks uniqueness |
| PermissionsService.PermissionsService.Create | src/permissions/permissions.service.ts:17-47 | rejected iff a permission has the same (apiPath, method); otherwise exactly the input is stored with the actor as creator and id and createdAt are returned; unique routes are kept |
| PermissionsService.PermissionsService.FindAll | src/permissions/permissions.service.ts:49-81 | BadRequest exactly when the requested page needs a negative skip; otherwise meta.total is the number of live permissions matching the filter, and the rest of meta follows the pagination rules |
| PermissionsService.PermissionsService.FindOne | src/permissions/permissions.service.ts:83-92 | a malformed id is BadRequest; otherwise the whole stored permission document, audit fields and deletion flag included, or nothing |
| PermissionsService.PermissionsService.Update | src/permissions/permissions.service.ts:94-121 | a malformed id is BadRequest; otherwise the four fields are overwritten with an updatedBy stamp |
| PermissionsService.PermissionsService.Remove | src/permissions/permissions.service.ts:123-141 | a malformed id is BadRequest; otherwise stamp-then-soft-delete |
| ResumesService.Submitted | src/resumes/resumes.service.ts:24-38 | a new resume takes email and user id from the actor, is PENDING, and has a single PENDING history entry by the actor |
| ResumesService.ChangeStatus | src/resumes/resumes.service.ts:122-141 | the status is set and exactly one entry with that status is appended; earlier entries and other fields are kept |
| ResumesService.ChangeStatusRecords | src/resumes/resumes.service.ts:122-141 | after a status change the status equals the last history entry's status |
| ResumesService.HistoryLogsEveryChange | src/resumes/resumes.service.ts:28-38 | after any sequence of changes the history is the PENDING entry followed by one entry per change, in order |
| ResumesService.InsertByDate | src/resumes/resumes.service.ts:96-99 | inserting one more resume id keeps the list duplicate-free and ordered by createdAt, newest first |
| ResumesService.ResumesService.Create | src/resumes/resumes.service.ts:22-52 | the submitted resume is stored with the actor as creator; id and createdAt are returned |
| ResumesService.ResumesService.FindAll | src/resumes/resumes.service.ts:54-87 | BadRequest exactly when the requested page needs a negative skip; otherwise meta.total is the number of live resumes matching the filter, and the rest of meta follows the pagination rules |
| ResumesService.ResumesService.FindOne | src/resumes/resumes.service.ts:89-94 | a malformed id is NotFound; otherwise the whole stored resume document, audit fields and deletion flag included, or nothing |
| ResumesService.ResumesService.FindByUsers | src/resumes/resumes.service.ts:96-114 | exactly the actor's live resumes, each once, newest first |
| ResumesService.ResumesService.Update | src/resumes/resumes.service.ts:116-148 | a malformed id is BadRequest; otherwise status set, one entry appended and updatedBy stamped; status and history stay in step |
| ResumesService.ResumesService.Remove | src/resumes/resumes.service.ts:150-164 | a malformed id is NotFound; otherwise stamp-then-soft-delete |
| SubscribersService.ApplyPatch | src/subscribers/subscribers.service.ts:93-107 | the upsert writes the email; name and skills take the value sent, or keep their stored value when not sent; patching a subscriber with its own email and nothing else changes nothing |
| SubscribersService.Upserted | src/subscribers/subscribers.service.ts:93-107 | the document an upsert creates carries the patch's email |
| SubscribersService.SubscribersService.CreateAsWritten | src/subscribers/subscribers.service.ts:17-43 | as written, every call is rejected with BadRequest and nothing is stored |
| SubscribersService.SubscribersService.Create | src/subscribers/subscribers.service.ts:17-43 | with the check awaited: rejected iff a subscriber has the email; otherwise one subscriber is added with the actor as creator |
| SubscribersService.SubscribersService.FindAll | src/subscribers/subscribers.service.ts:45-77 | BadRequest exactly when the requested page needs a negative skip; otherwise meta.total is the number of live subscribers matching the filter, and the rest of meta follows the pagination rules |
| SubscribersService.SubscribersService.FindOne | src/subscribers/subscribers.service.ts:79-89 | a malformed id is BadRequest; otherwise the whole stored subscriber document, audit fields and deletion flag included, or nothing |
| SubscribersService.SubscribersService.Update | src/subscribers/subscribers.service.ts:91-111 | afterwards a subscriber with the email exists, stamped with the actor: an existing one merged, or else a new one under the fresh id |
| SubscribersService.SubscribersService.Remove | src/subscribers/subscribers.service.ts:113-132 | a malformed id is BadRequest through the cast; otherwise stamp-then-soft-delete |
| SubscribersService.SubscribersService.GetSkills | src/subscribers/subscribers.service.ts:134-147 | the skills of a subscriber with the actor's email; nothing exactly when none has it |
| SubscribersService.UpsertThenGetSkills | src/subscribers/subscribers.service.ts:91-147 | with unique emails, an upsert of the actor's skills is what getSkills then returns |
| JobsService.ApplyPatch | src/jobs/jobs.service.ts:93-104 | every field sent has that value afterwards and every field not sent keeps its value; a patch the job already agrees with changes nothing |
| JobsService.PatchIdempotent | src/jobs/jobs.service.ts:93-104 | sending the same patch twice is the same as sending it once |
| JobsService.JobsService.Create | src/jobs/jobs.service.ts:22-43 | BadRequest iff now is after the end date; otherwise the job is stored with the actor as creator and id and createdAt are returned |
| JobsService.JobsService.FindAll | src/jobs/jobs.service.ts:45-77 | BadRequest exactly when the requested page needs a negative skip; otherwise meta.total is the number of live jobs matching the filter, and the rest of meta follows the pagination rules |
| JobsService.JobsService.FindOne | src/jobs/jobs.service.ts:79-89 | a malformed id is BadRequest; otherwise the whole stored job document, audit fields and deletion flag included, or nothing |
| JobsService.JobsService.Update | src/jobs/jobs.service.ts:91-108 | a malformed id is BadRequest through the cast; otherwise merged with an updatedBy stamp |
| JobsService.JobsService.Remove | src/jobs/jobs.service.ts:110-129 | a malformed id is BadRequest; otherwise stamp-then-soft-delete |
| CompaniesService.ApplyPatch | src/companies/companies.service.ts:85-95 | every field sent has that value afterwards and every field not sent keeps its value; a patch the company already agrees with changes nothing |
| CompaniesService.CompaniesService.Create | src/companies/companies.service.ts:23-35 | the company is always stored, with the actor as creator and no name check, and the new document is returned |
| CompaniesService.CompaniesService.FindAll | src/companies/companies.service.ts:37-69 | BadRequest exactly when the requested page needs a negative skip; otherwise meta.total is the number of live companies matching the filter, and the rest of meta follows the pagination rules |
| CompaniesService.CompaniesService.FindOne | src/companies/companies.service.ts:71-81 | a malformed id is BadRequest; otherwise the whole stored company document, audit fields and deletion flag included, or nothing |
| CompaniesService.CompaniesService.Update | src/companies/companies.service.ts:83-100 | a malformed id is BadRequest through the cast; otherwise merged with an updatedBy stamp |
| CompaniesService.CompaniesService.Remove | src/companies/companies.service.ts:102-121 | a malformed id is BadRequest; otherwise stamp-then-soft-delete |
| DatabasesService.LiveZero | src/databases/databases.service.ts:35-37 | a collection counts zero exactly when none of its documents is live |
| DatabasesService.SeedRoles | src/databases/databases.service.ts:48-61 | two active roles: the admin role with the given permissions and the user role with none |
| DatabasesService.SeedUsers | src/databases/databases.service.ts:69-103 | three users with the hashed initial password: two admins on the admin role and one user on the user role |
| DatabasesService.DatabasesService.OnModuleInit | src/databases/databases.service.ts:32-113 | nothing changes unless the flag is truthy; each collection with no live document before the run is seeded and every other collection is untouched; the admin role holds every live permission, each once; the users' roles are found by name |
| DatabasesService.DatabasesService.SeedPermissions | src/databases/databases.service.ts:40-43 | the sample permissions go in under fresh ids |
| DatabasesService.DatabasesService.SeedRoleDocs | src/databases/databases.service.ts:46-63 | exactly two roles are added, and the admin role holds every live permission id, each once |
| DatabasesService.DatabasesService.SeedUserDocs | src/databases/databases.service.ts:65-105 | exactly three users are added with the hashed password and the expected emails, their roles found by name |
| DatabasesService.SeedTwice | src/databases/databases.service.ts:40-109 | running the seeding twice has the effect of running it once, for any sample permissions: the second run finds roles and users populated and changes nothing |
| SalaryFormat.Digits | src/mail/mail.controller.ts:43 | the decimal text of the salary: digits only, at least one, no leading zero |
| SalaryFormat.DigitsRoundTrip | src/mail/mail.controller.ts:43 | the decimal text denotes the salary |
| SalaryFormat.FormatSalaryRoundTrip | src/mail/mail.controller.ts:43 | the formatted salary ends with " đ", and removing that suffix and the commas gives back the salary's digits |
| SalaryFormat.GroupsShape | src/mail/mail.controller.ts:43 | digit groups counted from the right: the first has 1 to 3 digits, every later one exactly 3, and together they are the digits |
| SalaryFormat.SeparateIsJoinedGroups | src/mail/mail.controller.ts:43 | the comma insertion is exactly the groups joined by commas |
| SalaryFormat.FormatSalaryGroups | src/mail/mail.controller.ts:43 | the formatted salary is the digit groups joined by commas, then " đ" |
| Mail.MatchingJobs | src/mail/mail.controller.ts:32-35 | a job is selected iff it shares at least one skill with the subscriber |
| Mail.MatchingJobsAppend | src/mail/mail.controller.ts:32-35 | the selection keeps the listing's order: selecting from a concatenation is selecting from each part in turn |
| Mail.NoSkillsNoMatch | src/mail/mail.controller.ts:32-35 | a subscriber with no skills, or jobs with no skills, select nothing |
| Mail.Entry | src/mail/mail.controller.ts:38-46 | the template entry keeps the name, company name and skills, and its salary text reads back to the salary's digits |
| Mail.Entries | src/mail/mail.controller.ts:38-46 | one entry per selected job, in order |
| Mail.Digest | src/mail/mail.controller.ts:37-57 | a message goes to the subscriber's email and name, listing the entries of the selected jobs |
| Mail.DigestIffSharedSkill | src/mail/mail.controller.ts:37 | a subscriber gets a mail iff some job shares one of its skills |
| Mail.WeeklyRun | src/mail/mail.controller.ts:30-59 | at most one message per subscriber is delivered |
| Mail.SentAreDigestsInOrder | src/mail/mail.controller.ts:30-31 | every delivered message is a subscriber's digest, in subscriber order, so nobody gets two |
| Mail.AllMatchingSubscribersServed | src/mail/mail.controller.ts:30-57 | when every send succeeds, every subscriber sharing a skill with a job receives its digest |
| Mail.FailureStopsBatch | src/mail/mail.controller.ts:48-57 | after a rejected send, later subscribers receive nothing |
| Mail.MailController.HandleTestEmail | src/mail/mail.controller.ts:29-60 | the outbox gains exactly the run's messages, in order; the result is false iff a send was rejected |

## Left out

- Framework and library internals are not part of this model: the JWT
  signature and expiry check, the passport strategy and the Reflector. The
  guard receives the authentication outcome and the two flags as inputs.
- The guard assumes `request.route.path` is always defined and takes the
  global prefix to be "/api/v1".
- The route table covers the auth, users, roles and mail controllers. The
  controllers of the other services are not part of this model.
- The soft-delete plugin, mongoose and api-query-params are not part of this
  model. The plugin's visibility is the stated assumption in `Store`. The
  filter an `aqp` query string produces is an opaque predicate.
- The sort order, `populate` and the projection of `findAll` are not
  modelled. The users `findOne` deselects only the password, and its answer
  is the stored user without it. Each `findAll`
  models only its `meta`; the page of documents it returns is left out.
- The ObjectId validity check is modelled as 24 hexadecimal digits. The bson
  library also accepts any 12-character string, and that case is left out.
- `Pagination.EffectiveLimit`: `current` and `pageSize` are integers, with an
  absent `pageSize` as `None` (NaN). Fractional or NaN page numbers are not
  modelled.
- Floating-point salaries are not modelled. `SalaryFormat.Digits` takes a
  natural number, so a salary of 10^21 or more, which JavaScript prints in
  exponent form, is not covered.
- `bcrypt` is a deterministic function parameter; the salt is not modelled.
  `INIT_PASSWORD` is taken to be set.
- `SHOULD_INIT`, `INIT_PASSWORD`, the admin email and the role names are
  parameters. So are the sample permissions of the constants file, which is
  not part of this model.
- The logger lines and the console message at the end of `onModuleInit` are
  left out.
- `updatedAt` timestamps the schema adds are not modelled. `createdAt` and
  `deletedAt` are.
- `findOneByUsername` and `isValidPassword` in the users service serve login
  only and are not modelled.
- The update DTOs are not part of this model. An update body is a patch
  whose absent fields are not written.
- A subscriber upsert that creates a document stores any field the body
  leaves out as empty.
- class-validator validation of the bodies is not modelled. Inputs are
  taken as already validated.
- Concurrency is not modelled. Two requests racing between a duplicate check
  and its insert, and the cron run alongside requests, cannot be expressed
  in a sequential model.
- The mail transport, the Handlebars template rendering and the cron schedule
  are not modelled. Delivery is an append to an outbox, and the transport's
  success is a parameter.
- Error messages are not modelled, only the error kind.

## Findings

| source | as written | input that shows it | evidently intended | confidence | as-written member | corrected member |
|---|---|---|---|---|---|---|
| src/subscribers/subscribers.service.ts:19-26 | the existence query is not awaited, so the check tests the query object, which is always truthy, and every create is rejected as "already exists" | any create request, including one whose email no subscriber holds | await the query, so create rejects only when a subscriber already has the email and otherwise stores the new subscriber | high (not executed) | SubscribersService.SubscribersService.CreateAsWritten | SubscribersService.SubscribersService.Create |
