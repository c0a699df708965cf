/** Client sessions against a fresh deployment, reasoning only from the
    store's method contracts. */
module Scenarios {
  import opened Common
  import opened Users
  import opened Jobs
  import opened Applications
  import opened Store

  /** The first person to sign in posts a job and applies for it twice: the
      first application goes through, the second is refused as a duplicate,
      and the job's counter stands at one. */
  method ApplyTwiceOnFreshStore(id: Identity, f: JobFields, now: int, later: int)
    returns (role: Role, first: Reply, second: Reply, count: int)
    ensures role == Admin
    ensures first == Reply(true, SubmittedMessage)
    ensures second == Reply(false, AlreadyAppliedMessage)
    ensures count == 1
  {
    var s := new DocumentStore(true, [0, 0, 0, 0, 0, 0], now);
    var u := s.GetOrCreateUser(id, NoPatch, Reachable);
    role := u.value.role;
    var added := s.AddJob(f, Reachable);
    var jobId := AutoId(0);
    assert jobId in s.jobs && id.uid in s.users && AppliedIds(s.users[id.uid]) == [];
    ghost var t0 := s.TxTables();
    first := s.ApplyForJob(jobId, id.uid, now, Reachable);
    ApplyWrites(true, t0, jobId, id.uid, now, Reachable);
    second := s.ApplyForJob(jobId, id.uid, later, Reachable);
    count := AppCount(s.jobs[jobId]);
  }

  /** Listing the jobs of an empty database seeds it once: both listings show
      the same six documents, the canonical jobs under the first six generated
      ids, and the second call adds nothing. */
  method ListJobsTwice(counts: seq<nat>, later: seq<nat>)
    returns (firstList: seq<Doc<Job>>, secondList: seq<Doc<Job>>)
    requires RandomCounts(counts) && RandomCounts(later)
    ensures |firstList| == |secondList| == 6
    ensures multiset(firstList) == multiset(secondList)
    ensures forall i :: 0 <= i < 6 ==> Doc(AutoId(i), SeedJobRecords(counts)[i]) in firstList
  {
    var s := new DocumentStore(true, counts, 0);
    var r1 := s.GetJobs(counts, Reachable);
    ghost var recs := SeedJobRecords(counts);
    assert recs[..|recs|] == recs;
    Seeding.SeededShape(0, recs);
    assert s.jobs == Seeding.Seeded(0, recs);
    ghost var seeded := s.jobs;
    var r2 := s.GetJobs(later, Reachable);
    assert s.jobs == seeded;
    firstList, secondList := r1.value, r2.value;
    Seeding.ListsSameMultiset(firstList, secondList, seeded);
  }
}
