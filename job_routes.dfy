/** The job-board routes: posting a job (open to every authenticated
    role), the filtered listing capped at 50, and applying, which refuses
    a second application by the same user but never looks at the job's
    status. */
module JobRoutes {
  import opened Common
  import opened JobPostModel
  import opened Store

  /** POST /jobs: the caller becomes the employer, whatever their role. */
  method CreateJob(db: Database, caller: Principal, f: JobFields, now: int) returns (r: Outcome<JobPost>)
    requires db.Valid()
    modifies db
    ensures db.Valid()
    ensures r == NewJob(old(db.nextId), caller.id, f, now)
    ensures r.Ok? ==> r.value.employerId == caller.id && r.value.status == Open
    ensures r.Ok? ==> db.Snapshot() == old(db.Snapshot()).(jobs := old(db.jobs) + [r.value], nextId := old(db.nextId) + 1)
    ensures r.Fail? ==> db.Snapshot() == old(db.Snapshot())
  {
    var s := db.Snapshot();
    r := NewJob(s.nextId, caller.id, f, now);
    if r.Ok? {
      InsertJob(s, r.value);
      db.jobs, db.nextId := s.jobs + [r.value], s.nextId + 1;
      assert db.Snapshot() == s.(jobs := s.jobs + [r.value], nextId := s.nextId + 1);
    }
  }

  /** The filter GET /jobs builds from its query parameters. */
  predicate JobListed(j: JobPost, category: Option<string>, status: Option<string>) {
    && (Given(category) ==> j.category == category.value)
    && (Given(status) ==> JobStatusName(j.status) == status.value)
  }

  /** The most jobs one listing returns. */
  const ListingCap: nat := 50

  /** GET /jobs: the jobs that pass the filter, at most 50 of them; when
      fewer than 50 pass, all of them. */
  function ListJobs(jobs: seq<JobPost>, category: Option<string>, status: Option<string>): (r: seq<JobPost>)
    ensures |r| <= ListingCap
    ensures forall j :: j in r ==> j in jobs && JobListed(j, category, status)
    ensures |r| < ListingCap ==> forall j :: j in jobs && JobListed(j, category, status) ==> j in r
  {
    var matching := Filter(jobs, (j: JobPost) => JobListed(j, category, status));
    var r := Take(matching, ListingCap);
    assert forall j :: j in r ==> j in matching;
    r
  }

  /** Some applicant of the list is `userId`. */
  predicate HasApplied(applicants: seq<Applicant>, userId: ObjectId) {
    exists a :: a in applicants && a.userId == userId
  }

  /** POST /jobs/:id/apply: 404 for an unknown job, 400 when the caller has
      already applied; otherwise the caller is appended to the applicants.
      The job's status is not consulted. */
  method Apply(db: Database, caller: Principal, jobId: ObjectId, now: int) returns (r: Outcome<JobPost>)
    requires db.Valid()
    modifies db
    ensures db.Valid()
    ensures FindJob(old(db.jobs), jobId).None? ==> r == Fail(NotFound)
    ensures FindJob(old(db.jobs), jobId).Some? ==>
      var k := FindJob(old(db.jobs), jobId).value;
      var j := old(db.jobs)[k];
      && (HasApplied(j.applicants, caller.id) ==> r == Fail(BadRequest))
      && (!HasApplied(j.applicants, caller.id) ==>
           && r == Ok(j.(applicants := j.applicants + [Applicant(caller.id, now)]))
           && db.Snapshot() == old(db.Snapshot()).(jobs := old(db.jobs)[k := r.value]))
    ensures r.Ok? ==> HasApplied(r.value.applicants, caller.id) && DistinctApplicants(r.value.applicants)
    ensures r.Fail? ==> db.Snapshot() == old(db.Snapshot())
  {
    var found := FindJob(db.jobs, jobId);
    if found.None? {
      return Fail(NotFound);
    }
    var k := found.value;
    var j := db.jobs[k];
    if HasApplied(j.applicants, caller.id) {
      return Fail(BadRequest);
    }
    var applicants := j.applicants + [Applicant(caller.id, now)];
    assert applicants[|j.applicants|] in applicants;
    assert DistinctApplicants(applicants) by {
      forall a, b | 0 <= a < b < |applicants| ensures applicants[a].userId != applicants[b].userId {
        if b == |j.applicants| {
          assert j.applicants[a] in j.applicants;
        }
      }
    }
    var updated := j.(applicants := applicants);
    var before := db.Snapshot();
    ReplaceJob(before, k, updated);
    db.jobs := before.jobs[k := updated];
    assert db.Snapshot() == before.(jobs := before.jobs[k := updated]);
    r := Ok(updated);
  }

  /** Every stored job lists each applicant once. */
  lemma StoredApplicantsDistinct(s: State, k: nat)
    requires Invariant(s) && k < |s.jobs|
    ensures DistinctApplicants(s.jobs[k].applicants)
  {
  }
}
