# hireJACKS service layer in Dafny

This project models the service layer of hireJACKS, a campus job board built on
Next.js and Firestore. The services are the functions under `src/services/`
that read and write the document store: applying for a job, signing users in
and keeping their profiles, seeding and listing jobs, companies, events and
news, and sending and listing notifications.

The document store is one class, `Store.DocumentStore`. Its fields are:

- one map per collection: `users` keyed by uid, and `jobs`, `companies`, `events`
  and `news` keyed by generated id;
- the `applications` and `notifications` collections as sequences;
- the in-memory `mockNotifications` list of the notification service;
- the flag `configured`, which stands for `isFirebaseConfigured` together with a
  non-null database handle;
- the counter `nextId`, which stands for the store's id generation. The `n`-th
  generated id is `AutoId(n)`.

Each service function is a method or a reading function of that class. Each
method is proved equal to a pure function of the old state, or its contract
states the new state outright. The properties are proved about those functions
as lemmas:

- `Applications`: the apply-for-job transaction. Failures are checked in source
  order and leave everything unchanged. A success makes three writes. The data
  invariant covers the application counters and duplicate-free applied-job lists.
- `Users`: the first-user role bootstrap, the mock user and profile updates.
  From an empty store, over any sequence of sign-ins whose extra fields carry
  no role, at most one admin exists; with the store reachable throughout, it is the first identity.
  A profile update that sets the role is not covered by these lemmas.
- `Seeding`: seed-on-first-read, as the loop `SeedCollection`. Against a
  reachable store seeding is idempotent. A seed interrupted after at least one
  insertion is never completed later.
  `Snapshot` models listing a collection.
- `Jobs`, `Companies`, `Events`, `News`: the record shapes, canonical seed lists,
  fallback lists and partial updates.
- `Notifications`, `Ordering`: the timestamp filter and the latest-first order
  of `orderBy(..., 'desc')`.
- `Scenarios`: two client sessions reasoned from the method contracts alone.

The store can fail. A call receives an `Outage`, which is either `Reachable` or
`Unreachable(after, reason)`. In the second case the store answers the first
`after` operations of the call and fails the rest with `reason` as the error
message. Each module's header says how its operations are numbered.

Values that the source takes from the environment are parameters:

- the current time (`now`, `loadTime`);
- the `Math.random` draws of the job seed (`counts`, six numbers below 50);
- the signed-in identity.

## Model

| member | source | states |
|---|---|---|
| Applications.ErrorMessage | src/services/applicationService.ts:72 | the failure message is the error's own message when it has one and 'An unexpected error occurred.' otherwise, so it is never empty |
| Applications.ApplyOutcome | src/services/applicationService.ts:20-74 | a failed application changes nothing. Success holds iff the store is configured, the user and the job exist, the job is not yet in the user's list and the commit goes through. Failures are reported in source order: not configured, then a failed read with the error's message, then user missing, then job missing, then already applied, then a failed commit with the error's message |
| Applications.ApplyWrites | src/services/applicationService.ts:50-66 | a success appends one application with the ids, the display name (or 'Unknown Student'), the job title and the company copied in. It raises that job's counter by one from its old value (missing counts as 0) and appends the job id to that user's list. No other user or job changes |
| Applications.ApplyTwice | src/services/applicationService.ts:46-69 | with the store configured and reachable on both calls, applying again for the same job after a success is refused with the already-applied message and changes nothing; the counter rose by exactly one |
| Applications.ApplyKeepsConsistent | src/services/applicationService.ts:46-66 | every outcome of the transaction keeps the data invariant: applied-job lists duplicate-free, each application recorded in its applicant's list, one application per (student, job), each job's counter equal to its number of applications |
| Store.DocumentStore.ApplyForJob | src/services/applicationService.ts:20-74 | the imperative transaction leaves exactly the collections and reply that ApplyOutcome gives, and keeps id freshness |
| Store.DocumentStore.GetApplications | src/services/applicationService.ts:77-100 | [] when unconfigured or when the query fails; otherwise a permutation of the stored applications ordered by appliedAt, latest first |
| Ordering.SortDesc | src/services/applicationService.ts:84 | the result is a permutation of the input ordered by the key, latest first |
| Ordering.SortDescOfSorted | src/services/notificationService.ts:47 | a list already latest first, ties included, is returned unchanged |
| Users.Patched | src/services/userService.ts:95-101 | field by field, a supplied field takes the supplied value and every field not supplied keeps its stored value; an empty update changes nothing |
| Users.PatchIdempotent | src/services/userService.ts:95-101 | applying the same profile update twice equals applying it once |
| Users.NewUser | src/services/userService.ts:59-67 | uid, email, name and photo come from the identity, the role is the computed one and the applied-job list is empty, except that each of these the extra fields supply takes the supplied value; the sign-up's own fields (phone, address, cgpa, experience, resume, company name, designation) are stored as the extra fields give them |
| Users.MockUser | src/services/userService.ts:35-47 | the user returned without a database, for the fields the extra data does not supply: the role is admin iff the extra company name is non-empty, the applied-job list is empty, and a missing or empty email or name falls back to 'student@example.com' or 'Mock User' |
| Users.UserOutcome | src/services/userService.ts:49-70 | a failed call writes nothing. An existing uid is returned unchanged with nothing written. A new uid is stored and returned as NewUser of the identity and extras; when the extra fields carry no role it is admin iff the collection was empty |
| Users.SignInKeepsAdmins | src/services/userService.ts:55-68 | once any user exists, no sign-in whose extra fields carry no role changes the set of admins |
| Users.SignInsKeepAdmins | src/services/userService.ts:55-68 | the same holds for any sequence of such sign-ins |
| Users.FirstSignInIsOnlyAdmin | src/services/userService.ts:55-68 | from an empty store with the store reachable at every step, the admins after any sequence of sign-ins whose extra fields carry no role are exactly the first identity |
| Users.NeverTwoAdmins | src/services/userService.ts:55-68 | from an empty store, under any store failures, sign-ins whose extra fields carry no role never make more than one admin |
| Store.DocumentStore.GetOrCreateUser | src/services/userService.ts:34-71 | mock user and nothing stored without a database. Otherwise the effect of UserOutcome, and after a success getUserProfile returns exactly the returned record |
| Store.DocumentStore.GetUserProfile | src/services/userService.ts:78-86 | null without a database or for an unknown uid; the stored record otherwise; a failing read throws |
| Store.DocumentStore.UpdateUserProfile | src/services/userService.ts:95-101 | throws without a database, on a store failure or for a missing user, changing nothing; otherwise exactly that user becomes the patched record |
| Jobs.SeedJobRecords | src/services/jobService.ts:35-37 | the six canonical jobs in order, each with a counter in 0..49 |
| Jobs.MockJobs | src/services/jobService.ts:25 | the six canonical jobs in order under ids "mock-job-0".."mock-job-5" with the counters drawn at load time |
| Jobs.NewJob | src/services/jobService.ts:73-76 | the given fields and applications 0 |
| Jobs.Patched | src/services/jobService.ts:90-92 | the counter is never touched; each of title, company, status, location and type takes the supplied value or keeps the stored one; an empty patch changes nothing |
| Jobs.PatchIdempotent | src/services/jobService.ts:90-91 | applying the same job edit twice equals applying it once |
| Seeding.SeedOutcome | src/services/jobService.ts:27-46 | no database or a non-empty collection: nothing changes. With a database the seed throws exactly when the store fails the count query or one of the insertions. The id counter never goes back |
| Seeding.SeedLeavesPrefix | src/services/jobService.ts:32-37 | once the count query is answered, an empty collection ends up holding exactly the canonical records inserted before any failure, in order under consecutive generated ids; none if the first insertion fails |
| Seeding.SeedFillsEmpty | src/services/companyService.ts:28-33 | an empty collection with the store reachable ends up holding exactly the canonical records under fresh ids |
| Seeding.SeedNonEmpty | src/services/eventService.ts:24-29 | with a database, after a seed that reports no error, the collection is non-empty iff it was before or the canonical list is non-empty |
| Seeding.SeedIdempotent | src/services/jobService.ts:32-37 | against a reachable store, seeding twice equals seeding once |
| Seeding.PartialSeedIsFinal | src/services/newsService.ts:65-77 | a seed that fails after some insertions leaves a proper prefix of the canonical list, and every later seed leaves it as it is |
| Seeding.SeededKeys | src/services/jobService.ts:35-37 | the generated ids the seed inserts are exactly one per record, from the counter on |
| Seeding.SeededShape | src/services/jobService.ts:35-37 | record i is stored under the i-th generated id and nothing else is stored |
| Seeding.SeedCollection | src/services/jobService.ts:32-38 | the count-then-insert loop computes exactly SeedOutcome and keeps generated ids fresh |
| Seeding.Snapshot | src/services/jobService.ts:55-57 | the listing holds every stored document once, each with its own id and data |
| Seeding.ListsSameMultiset | src/services/jobService.ts:55-57 | two listings of the same collection differ at most in order |
| Seeding.MockDocs | src/services/companyService.ts:21 | the fallback list: the records in order, the i-th under id prefix + i |
| Seeding.MockIdsDistinct | src/services/eventService.ts:17 | no two fallback documents share an id |
| Store.DocumentStore.SeedJobs | src/services/jobService.ts:27-46 | the effect on jobs and the id counter is SeedOutcome of the canonical jobs |
| Store.DocumentStore.GetJobs | src/services/jobService.ts:48-63 | mock jobs without a database. Otherwise it seeds, then lists the jobs. Any store error propagates as a thrown error |
| Store.DocumentStore.AddJob | src/services/jobService.ts:65-82 | mock success and no change without a database; failure message and no change on a store error; otherwise exactly one new job under a fresh id with applications 0 |
| Store.DocumentStore.UpdateJob | src/services/jobService.ts:84-98 | only that job changes, by the patch; a store error or a missing job gives the update failure message and no change |
| Store.DocumentStore.DeleteJob | src/services/jobService.ts:100-114 | exactly that key leaves the jobs map (a missing one too, reporting success); nothing changes on error or without a database |
| Companies.MockCompanies | src/services/companyService.ts:21 | the five canonical companies in order under ids "mock-company-i" |
| Companies.NewCompany | src/services/companyService.ts:72-75 | the given fields and jobsPosted 0 |
| Companies.Patched | src/services/companyService.ts:88-90 | jobsPosted is never touched; name and industry take the supplied value or keep the stored one; an empty patch changes nothing |
| Store.DocumentStore.SeedCompanies | src/services/companyService.ts:23-42 | the effect on companies and the id counter is SeedOutcome of the canonical companies |
| Store.DocumentStore.GetCompanies | src/services/companyService.ts:44-60 | mock companies without a database. Otherwise it seeds, then lists the companies. Errors propagate |
| Store.DocumentStore.AddCompany | src/services/companyService.ts:63-80 | exactly one new company under a fresh id with jobsPosted 0, or the mock/failure reply and no change |
| Store.DocumentStore.UpdateCompany | src/services/companyService.ts:82-96 | only that company changes, by the patch; failure message and no change otherwise |
| Events.MockEvents | src/services/eventService.ts:17 | the three canonical events in order under ids "mock-event-i" |
| Store.DocumentStore.SeedEvents | src/services/eventService.ts:19-38 | the effect on events and the id counter is SeedOutcome of the canonical events |
| Store.DocumentStore.GetUpcomingEvents | src/services/eventService.ts:40-56 | mock events without a database or on any seed or read error; otherwise seeds, then lists every stored event with its id |
| News.MockNews | src/services/newsService.ts:58 | the six canonical news items in order under ids "mock-news-i" |
| Store.DocumentStore.SeedNews | src/services/newsService.ts:60-79 | the effect on news and the id counter is SeedOutcome of the canonical items |
| Store.DocumentStore.GetNewsItems | src/services/newsService.ts:81-97 | mock news without a database or on any error; otherwise seeds, then lists every stored item with its id |
| Store.DocumentStore.constructor | src/services/notificationService.ts:14-17 | a fresh deployment: every collection empty, and the two initial in-memory notifications |
| Notifications.InitialMockOrder | src/services/notificationService.ts:14-17 | the initial mock list has ids "1" and "2", stamped with the load time and one day earlier, so it is latest first |
| Notifications.MockNotification | src/services/notificationService.ts:22 | the mock entry's id is "mock-" followed by the current time, with the given title and message |
| Notifications.Stamp | src/services/notificationService.ts:54-59 | a listed notification keeps the stored id, title, message and timestamp |
| Notifications.Stamped | src/services/notificationService.ts:48-60 | every stored record with a timestamp is listed, and every listed entry comes from a stored record |
| Notifications.StampedKeepsAll | src/services/notificationService.ts:51-53 | nothing is dropped iff every stored record has a timestamp |
| Notifications.StampedAppend | src/services/notificationService.ts:48-60 | storing one more stamped record adds exactly its converted entry at the end |
| Notifications.StampedDrop | src/services/notificationService.ts:51-53 | storing one more record without a timestamp leaves the list unchanged; with StampedAppend and the empty case this fixes the list: each stamped record exactly once, in stored order |
| Notifications.Listing | src/services/notificationService.ts:46-62 | the stamped records, latest first |
| Notifications.ListingAfterAdd | src/services/notificationService.ts:28-31 | after a stored add, the listing holds the old entries plus exactly the new one |
| Store.DocumentStore.AddNotification | src/services/notificationService.ts:19-38 | without a database the new entry goes in front of the in-memory list. On a store error: failure message, nothing stored. Otherwise exactly one record with title, message and the current timestamp is appended under the next generated id |
| Store.DocumentStore.GetNotifications | src/services/notificationService.ts:40-67 | the in-memory list without a database; [] on a failed read; otherwise the listing of stamped records, latest first |
| Scenarios.ApplyTwiceOnFreshStore | src/services/applicationService.ts:46-69 | on a fresh store the first user is admin, the first application succeeds, the second is refused, and the counter is one |
| Scenarios.ListJobsTwice | src/services/jobService.ts:48-63 | listing jobs of an empty store twice shows the same six seeded jobs both times |

## Left out

- Users.NeverTwoAdmins: the admin bound covers sign-ins only. `updateUserProfile` and a sign-up whose extra fields set the role can make further admins, as the source allows.
- Concurrency. There is no count-then-create race between two first sign-ins in `getOrCreateUser`, and there is no transaction retry. Every call runs alone, and the transaction either commits all three writes or none.
- The Firestore client, authentication and configuration loading. The database handle becomes the `configured` flag and the signed-in user an `Identity` value.
- Generated document ids. Firestore's random ids are modelled as `AutoId` of a counter shared by all collections. Only their freshness matters.
- Listing order. `getDocs` on a collection returns the documents in an order that is not modelled: `Seeding.Lists` allows every order. For `orderBy(..., 'desc')` the model orders equal timestamps by its insertion sort, where Firestore breaks ties by document id; the order among ties is stated only for lists already latest first (`Ordering.SortDescOfSorted`).
- Timestamps. `new Date()` and `serverTimestamp()` are integers supplied by the caller. The mock notification's id time and `createdAt` are the same instant `now`. The Date conversion `toDate()` is the identity.
- `getApplications`: an `orderBy('appliedAt')` query leaves out documents without the field, and a document whose `appliedAt` is null makes `.toDate()` throw, so the call returns []. Every modelled application carries a non-null `appliedAt`, so neither case arises.
- `Math.random()`: the job seed's counters and the mock job counters are parameters, six numbers below 50.
- Store.DocumentStore.GetJobs: the counters drawn for seeding are a parameter of the call. The source draws them inside `seedJobs`.
- JavaScript spreads of `undefined` fields. A patch field is either supplied or absent. An `id` field inside update data is not modelled.
- `getNotifications` converts each document, then filters. The model filters, then converts, which gives the same list.
- Console logging and the development-mode hints printed by the seeders.
- Seeded jobs carry random application counters while no applications exist, so `Applications.Consistent` does not hold after a job seed. It is kept by the transaction only.
- The pages, forms, AI flows, the HTTP route and the auth context. They are not part of this model.
