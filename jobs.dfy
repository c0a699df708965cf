/** Job records of the job service: the record shape, the canonical seed
    list, the fallback list and the partial update of `updateJob`. */
module Jobs {
  import opened Common
  import Seeding

  datatype JobStatus = Active | Paused | Closed
  datatype JobType = FullTime | PartTime | Internship

  /** A job as `addJob` receives it and as `initialJobs` lists it: no id, no
      application counter. */
  datatype JobFields = JobFields(title: string, company: string, location: string, jobType: JobType, status: JobStatus)

  /** A stored job document. `applications` is absent in a document that
      lacks the field. */
  datatype Job = Job(title: string, company: string, status: JobStatus, applications: Option<int>,
                     location: string, jobType: JobType)

  /** The fields an admin edit may change; the counter is not among them. */
  datatype JobPatch = JobPatch(title: Option<string>, company: Option<string>, status: Option<JobStatus>,
                               location: Option<string>, jobType: Option<JobType>)

  const InitialJobs: seq<JobFields> := [
    JobFields("Frontend Developer", "Tech Solutions Inc.", "Remote", FullTime, Active),
    JobFields("UX/UI Designer", "Creative Minds LLC", "New York, NY", Internship, Active),
    JobFields("Data Analyst", "Analytics Corp", "San Francisco, CA", PartTime, Paused),
    JobFields("Backend Engineer", "ServerSide Systems", "Austin, TX", FullTime, Active),
    JobFields("Product Manager", "Innovate Co.", "Remote", FullTime, Closed),
    JobFields("Marketing Intern", "Growth Gurus", "Boston, MA", Internship, Active)
  ]

  /** `{ ...fields, applications: n }`. */
  function WithCount(f: JobFields, n: int): (j: Job)
    ensures j.applications == Some(n)
  {
    Job(f.title, f.company, f.status, Some(n), f.location, f.jobType)
  }

  /** The record fields of a job, as `addJob` and the seed list give them. */
  function FieldsOf(j: Job): JobFields {
    JobFields(j.title, j.company, j.location, j.jobType, j.status)
  }

  /** One `Math.floor(Math.random() * 50)` draw per canonical job (there are six). */
  predicate RandomCounts(counts: seq<nat>) {
    |counts| == 6 && forall i :: 0 <= i < |counts| ==> counts[i] < 50
  }

  /** The documents `seedJobs` inserts, given its random draws. */
  function SeedJobRecords(counts: seq<nat>): (r: seq<Job>)
    requires RandomCounts(counts)
    ensures |r| == |InitialJobs| == 6
    ensures forall i :: 0 <= i < |r| ==>
      FieldsOf(r[i]) == InitialJobs[i] && r[i].applications.Some? && 0 <= r[i].applications.value < 50
  {
    seq(|InitialJobs|, i requires 0 <= i < |InitialJobs| => WithCount(InitialJobs[i], counts[i]))
  }

  /** `mockJobs`: the canonical jobs with ids "mock-job-0" .. "mock-job-5" and
      the random counters drawn when the module was loaded. */
  function MockJobs(counts: seq<nat>): (r: seq<Doc<Job>>)
    requires RandomCounts(counts)
    ensures |r| == 6
    ensures forall i :: 0 <= i < 6 ==>
      r[i].id == Seeding.MockId("mock-job-", i) && FieldsOf(r[i].data) == InitialJobs[i]
      && r[i].data.applications == Some(counts[i])
  {
    Seeding.MockDocs("mock-job-", SeedJobRecords(counts))
  }

  /** The job a new `addJob` stores: the given fields and no applications yet. */
  function NewJob(f: JobFields): (j: Job)
    ensures FieldsOf(j) == f && j.applications == Some(0)
  {
    WithCount(f, 0)
  }

  /** `updateDoc(jobRef, jobData)`: supplied fields replace the stored ones. */
  function Patched(j: Job, p: JobPatch): (r: Job)
    ensures r.applications == j.applications
    ensures (p.title.None? ==> r.title == j.title) && (p.title.Some? ==> r.title == p.title.value)
    ensures (p.company.None? ==> r.company == j.company) && (p.company.Some? ==> r.company == p.company.value)
    ensures (p.status.None? ==> r.status == j.status) && (p.status.Some? ==> r.status == p.status.value)
    ensures (p.location.None? ==> r.location == j.location) && (p.location.Some? ==> r.location == p.location.value)
    ensures (p.jobType.None? ==> r.jobType == j.jobType) && (p.jobType.Some? ==> r.jobType == p.jobType.value)
    ensures p == JobPatch(None, None, None, None, None) ==> r == j
  {
    Job(Override(j.title, p.title), Override(j.company, p.company), Override(j.status, p.status),
        j.applications, Override(j.location, p.location), Override(j.jobType, p.jobType))
  }

  /** Applying the same edit twice is applying it once. */
  lemma PatchIdempotent(j: Job, p: JobPatch)
    ensures Patched(Patched(j, p), p) == Patched(j, p)
  {
  }
}
