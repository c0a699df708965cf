/** The document store the services work on, with one method per service
    function. `configured` stands for `isFirebaseConfigured` (the database
    handle exists exactly when the configuration does); `nextId` stands for
    the store's id generation; `mockNotifications` and `mockJobCounts` are
    the module-level state of the notification and job services. */
module Store {
  import opened Common
  import opened Users
  import opened Jobs
  import opened Companies
  import opened Events
  import opened News
  import opened Notifications
  import opened Applications
  import Seeding
  import Ordering

  class DocumentStore {
    const configured: bool
    /** The random counters `mockJobs` drew when the job service was loaded. */
    const mockJobCounts: seq<nat>

    var users: map<string, User>
    var jobs: map<string, Job>
    var companies: map<string, Company>
    var events: map<string, UpcomingEvent>
    var news: map<string, NewsItem>
    var applications: seq<Doc<Application>>
    var notifications: seq<Doc<NotificationRecord>>
    var mockNotifications: seq<Doc<Notification>>
    var nextId: nat

    /** No id the store has still to generate names a stored job, company,
        event or news item. */
    ghost predicate Valid()
      reads this`jobs, this`companies, this`events, this`news, this`nextId
    {
      && RandomCounts(mockJobCounts)
      && Fresh(nextId, jobs) && Fresh(nextId, companies) && Fresh(nextId, events) && Fresh(nextId, news)
    }

    /** A fresh deployment: every collection empty. */
    constructor (configured: bool, mockJobCounts: seq<nat>, loadTime: int)
      requires RandomCounts(mockJobCounts)
      ensures Valid()
      ensures this.configured == configured && this.mockJobCounts == mockJobCounts
      ensures users == map[] && jobs == map[] && companies == map[] && events == map[] && news == map[]
      ensures applications == [] && notifications == [] && nextId == 0
      ensures mockNotifications == InitialMockNotifications(loadTime)
    {
      this.configured := configured;
      this.mockJobCounts := mockJobCounts;
      users, jobs, companies, events, news := map[], map[], map[], map[], map[];
      applications, notifications, nextId := [], [], 0;
      mockNotifications := InitialMockNotifications(loadTime);
    }

    /** The part of the store the apply-for-job transaction works on. */
    function TxTables(): Tables
      reads this
    {
      Tables(users, jobs, applications, nextId)
    }

    // ---------------------------------------------------------------- applications

    /** `applyForJob`: two reads, three checks, then three writes committed together. */
    method ApplyForJob(jobId: string, userId: string, now: int, o: Outage) returns (reply: Reply)
      requires Valid()
      modifies this`users, this`jobs, this`applications, this`nextId
      ensures Valid()
      ensures (TxTables(), reply) == ApplyOutcome(configured, old(TxTables()), jobId, userId, now, o)
    {
      if !configured {
        return Reply(false, NotConfiguredMessage);
      }
      if !Answers(o, 1) {
        return Reply(false, ErrorMessage(o.reason));
      }
      if userId !in users {
        return Reply(false, UserNotFoundMessage);
      }
      if jobId !in jobs {
        return Reply(false, JobNotFoundMessage);
      }
      var user, job := users[userId], jobs[jobId];
      if jobId in AppliedIds(user) {
        return Reply(false, AlreadyAppliedMessage);
      }
      if !Answers(o, 2) {
        return Reply(false, ErrorMessage(o.reason));
      }
      var application := Application(userId, StudentName(user), jobId, job.title, job.company, now);
      var job' := job.(applications := Some(AppCount(job) + 1));
      applications := applications + [Doc(AutoId(nextId), application)];
      nextId := nextId + 1;
      jobs := jobs[jobId := job'];
      users := users[userId := user.(appliedJobIds := Some(AppliedIds(user) + [jobId]))];
      reply := Reply(true, SubmittedMessage);
      FreshShrink(old(nextId), old(jobs), nextId, jobs);
      FreshShrink(old(nextId), companies, nextId, companies);
      FreshShrink(old(nextId), events, nextId, events);
      FreshShrink(old(nextId), news, nextId, news);
    }

    /** `getApplications`: every application, latest first; [] without a
        database or when the query fails. */
    function GetApplications(o: Outage): (r: seq<Doc<Application>>)
      reads this
      ensures !configured || !Answers(o, 0) ==> r == []
      ensures configured && Answers(o, 0) ==>
        multiset(r) == multiset(applications) && Ordering.DescendingBy(r, AppliedAt)
    {
      if !configured || !Answers(o, 0) then [] else Ordering.SortDesc(applications, AppliedAt)
    }

    // ---------------------------------------------------------------- users

    /** `getOrCreateUser`. */
    method GetOrCreateUser(id: Identity, extra: UserPatch, o: Outage) returns (r: Result<User>)
      modifies this`users
      ensures !configured ==> r == Ok(MockUser(id, extra)) && users == old(users)
      ensures configured ==> (users, r) == UserOutcome(old(users), id, extra, o)
      ensures configured && r.Ok? ==> GetUserProfile(id.uid, Reachable) == Ok(Some(r.value))
    {
      if !configured {
        return Ok(MockUser(id, extra));
      }
      if !Answers(o, 0) {
        return Err(StoreFailure(o.reason));
      }
      if id.uid in users {
        return Ok(users[id.uid]);
      }
      if !Answers(o, 1) {
        return Err(StoreFailure(o.reason));
      }
      var isFirstUser := |users| == 0;
      var created := NewUser(id, extra, if isFirstUser then Admin else Student);
      if !Answers(o, 2) {
        return Err(StoreFailure(o.reason));
      }
      users := users[id.uid := created];
      r := Ok(created);
    }

    /** `getUserProfile`: the stored record, or null for an unknown uid or
        without a database; a failing read throws. */
    function GetUserProfile(uid: string, o: Outage): (r: Result<Option<User>>)
      reads this
      ensures !configured ==> r == Ok(None)
      ensures configured && !Answers(o, 0) ==> r.Err?
      ensures configured && Answers(o, 0) ==> r.Ok? && (r.value.Some? <==> uid in users)
      ensures r.Ok? && r.value.Some? ==> uid in users && r.value.value == users[uid]
    {
      if !configured then Ok(None)
      else if !Answers(o, 0) then Err(StoreFailure(o.reason))
      else if uid in users then Ok(Some(users[uid]))
      else Ok(None)
    }

    /** `updateUserProfile`: merges the supplied fields into one user; throws
        without a database, when the store fails or when there is no such user. */
    method UpdateUserProfile(uid: string, p: UserPatch, o: Outage) returns (r: Result<()>)
      modifies this`users
      ensures !configured ==> r == Err(NotConfigured("Firebase not configured. Cannot update user profile."))
      ensures configured && !Answers(o, 0) ==> r == Err(StoreFailure(o.reason))
      ensures configured && Answers(o, 0) && uid !in old(users) ==> r == Err(NotFound(uid))
      ensures r.Ok? <==> configured && Answers(o, 0) && uid in old(users)
      ensures r.Err? ==> users == old(users)
      ensures r.Ok? ==> users == old(users)[uid := Users.Patched(old(users)[uid], p)]
    {
      if !configured {
        return Err(NotConfigured("Firebase not configured. Cannot update user profile."));
      }
      if !Answers(o, 0) {
        return Err(StoreFailure(o.reason));
      }
      if uid !in users {
        return Err(NotFound(uid));
      }
      users := users[uid := Users.Patched(users[uid], p)];
      r := Ok(());
    }

    // ---------------------------------------------------------------- jobs

    /** `seedJobs`, given its random counter draws; `ok` is false when it throws. */
    method SeedJobs(counts: seq<nat>, o: Outage) returns (ok: bool)
      requires Valid() && RandomCounts(counts)
      modifies this`jobs, this`nextId
      ensures Valid()
      ensures Seeding.SeedResult(jobs, nextId, ok) ==
        Seeding.SeedOutcome(configured, old(jobs), SeedJobRecords(counts), old(nextId), o)
    {
      jobs, nextId, ok := Seeding.SeedCollection(configured, jobs, SeedJobRecords(counts), nextId, o);
    }

    /** `getJobs`: the mock list without a database; otherwise seed, then every
        stored job with its id. Errors propagate. */
    method GetJobs(counts: seq<nat>, o: Outage) returns (r: Result<seq<Doc<Job>>>)
      requires Valid() && RandomCounts(counts)
      modifies this`jobs, this`nextId
      ensures Valid()
      ensures !configured ==> r == Ok(MockJobs(mockJobCounts)) && jobs == old(jobs) && nextId == old(nextId)
      ensures configured ==>
        var s := Seeding.SeedOutcome(true, old(jobs), SeedJobRecords(counts), old(nextId), o);
        && jobs == s.coll && nextId == s.next
        && (r.Ok? <==> s.ok && Answers(o, Seeding.SeedOps(old(jobs), 6)))
        && (r.Ok? ==> Seeding.Lists(r.value, jobs))
        && (r.Err? ==> o.Unreachable? && r.error == StoreFailure(o.reason))
    {
      if !configured {
        return Ok(MockJobs(mockJobCounts));
      }
      var readOp := Seeding.SeedOps(jobs, |InitialJobs|);
      var ok := SeedJobs(counts, o);
      if !ok || !Answers(o, readOp) {
        return Err(StoreFailure(o.reason));
      }
      var docs := Seeding.Snapshot(jobs);
      r := Ok(docs);
    }

    /** `addJob`: one new job under a fresh id with no applications. */
    method AddJob(f: JobFields, o: Outage) returns (reply: Reply)
      requires Valid()
      modifies this`jobs, this`nextId
      ensures Valid()
      ensures !configured ==> reply == Reply(true, "Job added successfully (mock)!")
      ensures configured && !Answers(o, 0) ==>
        reply == Reply(false, "An unexpected error occurred while adding the job.")
      ensures configured && Answers(o, 0) ==>
        && reply == Reply(true, "Job added successfully!")
        && AutoId(old(nextId)) !in old(jobs)
        && jobs == old(jobs)[AutoId(old(nextId)) := NewJob(f)]
        && |jobs| == |old(jobs)| + 1
        && nextId == old(nextId) + 1
      ensures !(configured && Answers(o, 0)) ==> jobs == old(jobs) && nextId == old(nextId)
    {
      if !configured {
        return Reply(true, "Job added successfully (mock)!");
      }
      if !Answers(o, 0) {
        return Reply(false, "An unexpected error occurred while adding the job.");
      }
      FreshAfterInsert(nextId, jobs, NewJob(f));
      jobs := jobs[AutoId(nextId) := NewJob(f)];
      nextId := nextId + 1;
      reply := Reply(true, "Job added successfully!");
    }

    /** `updateJob`: the supplied fields of one existing job change. */
    method UpdateJob(jobId: string, p: JobPatch, o: Outage) returns (reply: Reply)
      requires Valid()
      modifies this`jobs
      ensures Valid()
      ensures !configured ==> reply == Reply(true, "Job updated successfully (mock)!")
      ensures configured && (!Answers(o, 0) || jobId !in old(jobs)) ==>
        reply == Reply(false, "An unexpected error occurred while updating the job.")
      ensures configured && Answers(o, 0) && jobId in old(jobs) ==>
        reply == Reply(true, "Job updated successfully!") && jobs == old(jobs)[jobId := Jobs.Patched(old(jobs)[jobId], p)]
      ensures !(configured && Answers(o, 0) && jobId in old(jobs)) ==> jobs == old(jobs)
    {
      if !configured {
        return Reply(true, "Job updated successfully (mock)!");
      }
      if !Answers(o, 0) || jobId !in jobs {
        return Reply(false, "An unexpected error occurred while updating the job.");
      }
      jobs := jobs[jobId := Jobs.Patched(jobs[jobId], p)];
      reply := Reply(true, "Job updated successfully!");
    }

    /** `deleteJob`: that job and nothing else goes; deleting a missing job succeeds. */
    method DeleteJob(jobId: string, o: Outage) returns (reply: Reply)
      requires Valid()
      modifies this`jobs
      ensures Valid()
      ensures !configured ==> reply == Reply(true, "Job deleted successfully (mock)!") && jobs == old(jobs)
      ensures configured && !Answers(o, 0) ==>
        reply == Reply(false, "An unexpected error occurred while deleting the job.") && jobs == old(jobs)
      ensures configured && Answers(o, 0) ==>
        reply == Reply(true, "Job deleted successfully!") && jobs == old(jobs) - {jobId}
    {
      if !configured {
        return Reply(true, "Job deleted successfully (mock)!");
      }
      if !Answers(o, 0) {
        return Reply(false, "An unexpected error occurred while deleting the job.");
      }
      jobs := jobs - {jobId};
      reply := Reply(true, "Job deleted successfully!");
    }

    // ---------------------------------------------------------------- companies

    /** `seedCompanies`; `ok` is false when it throws. */
    method SeedCompanies(o: Outage) returns (ok: bool)
      requires Valid()
      modifies this`companies, this`nextId
      ensures Valid()
      ensures Seeding.SeedResult(companies, nextId, ok) ==
        Seeding.SeedOutcome(configured, old(companies), InitialCompanies, old(nextId), o)
    {
      companies, nextId, ok := Seeding.SeedCollection(configured, companies, InitialCompanies, nextId, o);
    }

    /** `getCompanies`: the mock list without a database; otherwise seed, then
        every stored company with its id. Errors propagate. */
    method GetCompanies(o: Outage) returns (r: Result<seq<Doc<Company>>>)
      requires Valid()
      modifies this`companies, this`nextId
      ensures Valid()
      ensures !configured ==> r == Ok(MockCompanies()) && companies == old(companies) && nextId == old(nextId)
      ensures configured ==>
        var s := Seeding.SeedOutcome(true, old(companies), InitialCompanies, old(nextId), o);
        && companies == s.coll && nextId == s.next
        && (r.Ok? <==> s.ok && Answers(o, Seeding.SeedOps(old(companies), 5)))
        && (r.Ok? ==> Seeding.Lists(r.value, companies))
        && (r.Err? ==> o.Unreachable? && r.error == StoreFailure(o.reason))
    {
      if !configured {
        return Ok(MockCompanies());
      }
      var readOp := Seeding.SeedOps(companies, |InitialCompanies|);
      var ok := SeedCompanies(o);
      if !ok || !Answers(o, readOp) {
        return Err(StoreFailure(o.reason));
      }
      var docs := Seeding.Snapshot(companies);
      r := Ok(docs);
    }

    /** `addCompany`: one new company under a fresh id with no jobs posted. */
    method AddCompany(f: CompanyFields, o: Outage) returns (reply: Reply)
      requires Valid()
      modifies this`companies, this`nextId
      ensures Valid()
      ensures !configured ==> reply == Reply(true, "Company added successfully (mock)!")
      ensures configured && !Answers(o, 0) ==>
        reply == Reply(false, "An unexpected error occurred while adding the company.")
      ensures configured && Answers(o, 0) ==>
        && reply == Reply(true, "Company added successfully!")
        && AutoId(old(nextId)) !in old(companies)
        && companies == old(companies)[AutoId(old(nextId)) := NewCompany(f)]
        && |companies| == |old(companies)| + 1
        && nextId == old(nextId) + 1
      ensures !(configured && Answers(o, 0)) ==> companies == old(companies) && nextId == old(nextId)
    {
      if !configured {
        return Reply(true, "Company added successfully (mock)!");
      }
      if !Answers(o, 0) {
        return Reply(false, "An unexpected error occurred while adding the company.");
      }
      FreshAfterInsert(nextId, companies, NewCompany(f));
      companies := companies[AutoId(nextId) := NewCompany(f)];
      nextId := nextId + 1;
      reply := Reply(true, "Company added successfully!");
    }

    /** `updateCompany`: the supplied fields of one existing company change. */
    method UpdateCompany(companyId: string, p: CompanyPatch, o: Outage) returns (reply: Reply)
      requires Valid()
      modifies this`companies
      ensures Valid()
      ensures !configured ==> reply == Reply(true, "Company updated successfully (mock)!")
      ensures configured && (!Answers(o, 0) || companyId !in old(companies)) ==>
        reply == Reply(false, "An unexpected error occurred while updating the company.")
      ensures configured && Answers(o, 0) && companyId in old(companies) ==>
        && reply == Reply(true, "Company updated successfully!")
        && companies == old(companies)[companyId := Companies.Patched(old(companies)[companyId], p)]
      ensures !(configured && Answers(o, 0) && companyId in old(companies)) ==> companies == old(companies)
    {
      if !configured {
        return Reply(true, "Company updated successfully (mock)!");
      }
      if !Answers(o, 0) || companyId !in companies {
        return Reply(false, "An unexpected error occurred while updating the company.");
      }
      companies := companies[companyId := Companies.Patched(companies[companyId], p)];
      reply := Reply(true, "Company updated successfully!");
    }

    // ---------------------------------------------------------------- events

    /** `seedEvents`; `ok` is false when it throws. */
    method SeedEvents(o: Outage) returns (ok: bool)
      requires Valid()
      modifies this`events, this`nextId
      ensures Valid()
      ensures Seeding.SeedResult(events, nextId, ok) ==
        Seeding.SeedOutcome(configured, old(events), InitialEvents, old(nextId), o)
    {
      events, nextId, ok := Seeding.SeedCollection(configured, events, InitialEvents, nextId, o);
    }

    /** `getUpcomingEvents`: seed, then every stored event with its id; the mock
        list without a database or on any error. */
    method GetUpcomingEvents(o: Outage) returns (r: seq<Doc<UpcomingEvent>>)
      requires Valid()
      modifies this`events, this`nextId
      ensures Valid()
      ensures !configured ==> r == MockEvents() && events == old(events) && nextId == old(nextId)
      ensures configured ==>
        var s := Seeding.SeedOutcome(true, old(events), InitialEvents, old(nextId), o);
        && events == s.coll && nextId == s.next
        && (s.ok && Answers(o, Seeding.SeedOps(old(events), 3)) ==> Seeding.Lists(r, events))
        && (!(s.ok && Answers(o, Seeding.SeedOps(old(events), 3))) ==> r == MockEvents())
    {
      if !configured {
        return MockEvents();
      }
      var readOp := Seeding.SeedOps(events, |InitialEvents|);
      var ok := SeedEvents(o);
      if !ok || !Answers(o, readOp) {
        return MockEvents();
      }
      r := Seeding.Snapshot(events);
    }

    // ---------------------------------------------------------------- news

    /** `seedNews`; `ok` is false when it throws. */
    method SeedNews(o: Outage) returns (ok: bool)
      requires Valid()
      modifies this`news, this`nextId
      ensures Valid()
      ensures Seeding.SeedResult(news, nextId, ok) ==
        Seeding.SeedOutcome(configured, old(news), InitialNewsItems, old(nextId), o)
    {
      news, nextId, ok := Seeding.SeedCollection(configured, news, InitialNewsItems, nextId, o);
    }

    /** `getNewsItems`: seed, then every stored item with its id; the mock list
        without a database or on any error. */
    method GetNewsItems(o: Outage) returns (r: seq<Doc<NewsItem>>)
      requires Valid()
      modifies this`news, this`nextId
      ensures Valid()
      ensures !configured ==> r == MockNews() && news == old(news) && nextId == old(nextId)
      ensures configured ==>
        var s := Seeding.SeedOutcome(true, old(news), InitialNewsItems, old(nextId), o);
        && news == s.coll && nextId == s.next
        && (s.ok && Answers(o, Seeding.SeedOps(old(news), 6)) ==> Seeding.Lists(r, news))
        && (!(s.ok && Answers(o, Seeding.SeedOps(old(news), 6))) ==> r == MockNews())
    {
      if !configured {
        return MockNews();
      }
      var readOp := Seeding.SeedOps(news, |InitialNewsItems|);
      var ok := SeedNews(o);
      if !ok || !Answers(o, readOp) {
        return MockNews();
      }
      r := Seeding.Snapshot(news);
    }

    // ---------------------------------------------------------------- notifications

    /** `addNotification`: without a database the new entry goes in front of the
        in-memory list; otherwise one stored record with the server timestamp. */
    method AddNotification(title: string, message: string, now: int, o: Outage) returns (reply: Reply)
      requires Valid()
      modifies this`notifications, this`mockNotifications, this`nextId
      ensures Valid()
      ensures !configured ==>
        && reply == Reply(true, NotificationSentMockMessage)
        && mockNotifications == [MockNotification(title, message, now)] + old(mockNotifications)
        && notifications == old(notifications) && nextId == old(nextId)
      ensures configured && !Answers(o, 0) ==>
        && reply == Reply(false, NotificationFailedMessage)
        && notifications == old(notifications) && nextId == old(nextId)
      ensures configured && Answers(o, 0) ==>
        && reply == Reply(true, NotificationSentMessage)
        && notifications == old(notifications) + [Doc(AutoId(old(nextId)), NotificationRecord(title, message, Some(now)))]
        && nextId == old(nextId) + 1
      ensures configured ==> mockNotifications == old(mockNotifications)
    {
      if !configured {
        mockNotifications := [MockNotification(title, message, now)] + mockNotifications;
        return Reply(true, NotificationSentMockMessage);
      }
      if !Answers(o, 0) {
        return Reply(false, NotificationFailedMessage);
      }
      var d := Doc(AutoId(nextId), NotificationRecord(title, message, Some(now)));
      FreshShrink(nextId, jobs, nextId + 1, jobs);
      FreshShrink(nextId, companies, nextId + 1, companies);
      FreshShrink(nextId, events, nextId + 1, events);
      FreshShrink(nextId, news, nextId + 1, news);
      notifications := notifications + [d];
      nextId := nextId + 1;
      reply := Reply(true, NotificationSentMessage);
    }

    /** `getNotifications`: the in-memory list without a database; otherwise the
        stored notifications that carry a timestamp, latest first; [] on a
        failed read. */
    function GetNotifications(o: Outage): (r: seq<Doc<Notification>>)
      reads this
      ensures !configured ==> r == mockNotifications
      ensures configured && !Answers(o, 0) ==> r == []
      ensures configured && Answers(o, 0) ==> r == Listing(notifications)
    {
      if !configured then mockNotifications
      else if !Answers(o, 0) then []
      else Listing(notifications)
    }
  }
}
