/** The apply-for-job transaction. Store operations of the transaction: 0
    reads the user document, 1 reads the job document, 2 commits the three
    writes. */
module Applications {
  import opened Common
  import opened Users
  import opened Jobs

  /** An application record; the student's name, job title and company are
      copies taken when the student applied. */
  datatype Application = Application(studentId: string, studentName: string, jobId: string,
                                     jobTitle: string, companyName: string, appliedAt: int)

  /** The three collections the transaction reads and writes, and the id
      counter it draws the new application's id from. */
  datatype Tables = Tables(users: map<string, User>, jobs: map<string, Job>,
                           applications: seq<Doc<Application>>, nextId: nat)

  const NotConfiguredMessage := "Application failed: Firebase not configured."
  const UserNotFoundMessage := "User not found."
  const JobNotFoundMessage := "Job not found."
  const AlreadyAppliedMessage := "You have already applied for this job."
  const SubmittedMessage := "Application submitted successfully!"

  /** `error.message || 'An unexpected error occurred.'` */
  function ErrorMessage(reason: string): (m: string)
    ensures m != ""
    ensures reason != "" ==> m == reason
    ensures reason == "" ==> m == "An unexpected error occurred."
  {
    if reason != "" then reason else "An unexpected error occurred."
  }

  /** `userData.appliedJobIds || []` */
  function AppliedIds(u: User): seq<string> {
    match u.appliedJobIds
    case None => []
    case Some(ids) => ids
  }

  /** `jobData.applications || 0` */
  function AppCount(j: Job): int {
    match j.applications
    case None => 0
    case Some(n) => n
  }

  function AppliedAt(d: Doc<Application>): int {
    d.data.appliedAt
  }

  function StudentName(u: User): string {
    OrElse(u.displayName, "Unknown Student")
  }

  /** `applyForJob(jobId, userId)`: the collections after the call and its reply. */
  function ApplyOutcome(configured: bool, t: Tables, jobId: string, userId: string, now: int, o: Outage)
    : (r: (Tables, Reply))
    ensures !r.1.success ==> r.0 == t
    ensures r.1.success <==>
      configured && Answers(o, 2) && userId in t.users && jobId in t.jobs && jobId !in AppliedIds(t.users[userId])
    ensures !configured ==> r.1 == Reply(false, NotConfiguredMessage)
    ensures configured && Answers(o, 1) ==>
      && (userId !in t.users ==> r.1 == Reply(false, UserNotFoundMessage))
      && (userId in t.users && jobId !in t.jobs ==> r.1 == Reply(false, JobNotFoundMessage))
      && (userId in t.users && jobId in t.jobs && jobId in AppliedIds(t.users[userId]) ==>
            r.1 == Reply(false, AlreadyAppliedMessage))
    ensures r.1.success ==> r.1.message == SubmittedMessage
    ensures configured && !Answers(o, 1) ==> r.1 == Reply(false, ErrorMessage(o.reason))
    ensures (configured && userId in t.users && jobId in t.jobs && jobId !in AppliedIds(t.users[userId])
             && !Answers(o, 2)) ==> r.1 == Reply(false, ErrorMessage(o.reason))
  {
    if !configured then (t, Reply(false, NotConfiguredMessage))
    else if !Answers(o, 1) then (t, Reply(false, ErrorMessage(o.reason)))
    else if userId !in t.users then (t, Reply(false, UserNotFoundMessage))
    else if jobId !in t.jobs then (t, Reply(false, JobNotFoundMessage))
    else
      var user, job := t.users[userId], t.jobs[jobId];
      if jobId in AppliedIds(user) then (t, Reply(false, AlreadyAppliedMessage))
      else if !Answers(o, 2) then (t, Reply(false, ErrorMessage(o.reason)))
      else
        var application := Application(userId, StudentName(user), jobId, job.title, job.company, now);
        var t' := Tables(
          t.users[userId := user.(appliedJobIds := Some(AppliedIds(user) + [jobId]))],
          t.jobs[jobId := job.(applications := Some(AppCount(job) + 1))],
          t.applications + [Doc(AutoId(t.nextId), application)],
          t.nextId + 1);
        (t', Reply(true, SubmittedMessage))
  }

  /** What a successful application writes: one new application record with
      copies of the student's name and the job's title and company, the job's
      counter one higher, the job id appended to the student's list, and no
      other user or job touched. */
  lemma ApplyWrites(configured: bool, t: Tables, jobId: string, userId: string, now: int, o: Outage)
    requires ApplyOutcome(configured, t, jobId, userId, now, o).1.success
    ensures var t' := ApplyOutcome(configured, t, jobId, userId, now, o).0;
      var user, job := t.users[userId], t.jobs[jobId];
      && t'.applications == t.applications +
           [Doc(AutoId(t.nextId), Application(userId, StudentName(user), jobId, job.title, job.company, now))]
      && t'.jobs.Keys == t.jobs.Keys && AppCount(t'.jobs[jobId]) == AppCount(job) + 1
      && FieldsOf(t'.jobs[jobId]) == FieldsOf(job)
      && (forall k :: k in t.jobs && k != jobId ==> t'.jobs[k] == t.jobs[k])
      && t'.users.Keys == t.users.Keys && AppliedIds(t'.users[userId]) == AppliedIds(user) + [jobId]
      && t'.users[userId] == user.(appliedJobIds := Some(AppliedIds(user) + [jobId]))
      && (forall k :: k in t.users && k != userId ==> t'.users[k] == t.users[k])
      && t'.nextId == t.nextId + 1
  {
  }

  /** Applying again for the same job, with the store reachable, is refused as
      a duplicate and changes nothing; the counter rose by exactly one. */
  lemma ApplyTwice(t: Tables, jobId: string, userId: string, now: int, now': int)
    requires ApplyOutcome(true, t, jobId, userId, now, Reachable).1.success
    ensures var t1 := ApplyOutcome(true, t, jobId, userId, now, Reachable).0;
      && ApplyOutcome(true, t1, jobId, userId, now', Reachable) == (t1, Reply(false, AlreadyAppliedMessage))
      && AppCount(t1.jobs[jobId]) == AppCount(t.jobs[jobId]) + 1
      && |t1.applications| == |t.applications| + 1
  {
  }

  ghost predicate NoDuplicates(s: seq<string>) {
    forall i, j :: 0 <= i < j < |s| ==> s[i] != s[j]
  }

  /** The number of applications for job `jobId`. */
  function CountFor(apps: seq<Doc<Application>>, jobId: string): nat
    decreases |apps|
  {
    if apps == [] then 0
    else CountFor(apps[..|apps| - 1], jobId) + (if apps[|apps| - 1].data.jobId == jobId then 1 else 0)
  }

  /** The applicant exists and lists the job among the jobs applied for. */
  ghost predicate Recorded(t: Tables, a: Application) {
    a.studentId in t.users && a.jobId in AppliedIds(t.users[a.studentId])
  }

  /** What the data model requires of the three collections: applied-job lists
      free of duplicates, every application recorded in its applicant's list,
      at most one application per (student, job) pair, and each job's
      counter equal to the number of applications for it. */
  ghost predicate Consistent(t: Tables) {
    && (forall u :: u in t.users ==> NoDuplicates(AppliedIds(t.users[u])))
    && (forall i :: 0 <= i < |t.applications| ==> Recorded(t, t.applications[i].data))
    && (forall i, j :: 0 <= i < j < |t.applications| ==>
          t.applications[i].data.studentId != t.applications[j].data.studentId
          || t.applications[i].data.jobId != t.applications[j].data.jobId)
    && (forall j :: j in t.jobs ==> AppCount(t.jobs[j]) == CountFor(t.applications, j))
  }

  /** The transaction keeps the collections consistent, whatever its outcome. */
  lemma ApplyKeepsConsistent(configured: bool, t: Tables, jobId: string, userId: string, now: int, o: Outage)
    requires Consistent(t)
    ensures Consistent(ApplyOutcome(configured, t, jobId, userId, now, o).0)
  {
    var (t', r) := ApplyOutcome(configured, t, jobId, userId, now, o);
    if r.success {
      var user := t.users[userId];
      var ids := AppliedIds(user);
      var n := |t.applications|;
      var a := t'.applications[n].data;
      assert t'.applications[..n] == t.applications;
      assert AppliedIds(t'.users[userId]) == ids + [jobId];
      forall u | u in t'.users
        ensures NoDuplicates(AppliedIds(t'.users[u]))
      {
        if u == userId {
          assert NoDuplicates(ids);
          forall i, j | 0 <= i < j < |ids + [jobId]|
            ensures (ids + [jobId])[i] != (ids + [jobId])[j]
          {
            if j == |ids| {
              assert (ids + [jobId])[i] == ids[i];
            } else {
              assert (ids + [jobId])[i] == ids[i] && (ids + [jobId])[j] == ids[j];
            }
          }
        }
      }
      forall i | 0 <= i < |t'.applications|
        ensures Recorded(t', t'.applications[i].data)
      {
        if i < n {
          var b := t.applications[i].data;
          assert t'.applications[i] == t.applications[i];
          assert Recorded(t, b);
          if b.studentId == userId {
            assert b.jobId in ids;
          }
        }
      }
      forall i, j | 0 <= i < j < |t'.applications|
        ensures t'.applications[i].data.studentId != t'.applications[j].data.studentId
                || t'.applications[i].data.jobId != t'.applications[j].data.jobId
      {
        if j == n {
          assert t'.applications[i] == t.applications[i];
          assert Recorded(t, t.applications[i].data);
        } else {
          assert t'.applications[i] == t.applications[i] && t'.applications[j] == t.applications[j];
        }
      }
      forall k | k in t'.jobs
        ensures AppCount(t'.jobs[k]) == CountFor(t'.applications, k)
      {
        assert CountFor(t'.applications, k) == CountFor(t.applications, k) + (if a.jobId == k then 1 else 0);
      }
    }
  }
}
