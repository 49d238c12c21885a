/** The job-post schema: required fields, the salary-type and status
    enumerations with their defaults, and the list of applicants. */
module JobPostModel {
  import opened Common

  datatype JobStatus = Open | Filled | Closed

  function JobStatusName(s: JobStatus): string {
    match s
    case Open => "open"
    case Filled => "filled"
    case Closed => "closed"
  }

  datatype SalaryType = MonthlySalary | DailySalary | FixedSalary

  function SalaryTypeName(s: SalaryType): string {
    match s
    case MonthlySalary => "monthly"
    case DailySalary => "daily"
    case FixedSalary => "fixed"
  }

  function ParseSalaryType(s: string): (r: Option<SalaryType>)
    ensures r.Some? <==> s == "monthly" || s == "daily" || s == "fixed"
    ensures r.Some? ==> SalaryTypeName(r.value) == s
  {
    if s == "monthly" then Some(MonthlySalary)
    else if s == "daily" then Some(DailySalary)
    else if s == "fixed" then Some(FixedSalary)
    else None
  }

  /** One entry of `applicants`. */
  datatype Applicant = Applicant(userId: ObjectId, appliedAt: int)

  datatype JobPost = JobPost(
    id: ObjectId,
    employerId: ObjectId,
    title: string,
    description: string,
    category: string,
    salary: real,
    salaryType: SalaryType,
    location: string,
    applicants: seq<Applicant>,
    status: JobStatus,
    requirements: seq<string>,
    createdAt: int)

  /** The body fields the create handler copies into the new document. */
  datatype JobFields = JobFields(
    title: Option<string>,
    description: Option<string>,
    category: Option<string>,
    salary: Option<real>,
    salaryType: Option<string>,
    location: Option<string>,
    requirements: Option<seq<string>>)

  /** No user appears twice among a job's applicants. */
  predicate DistinctApplicants(a: seq<Applicant>) {
    forall i, j :: 0 <= i < j < |a| ==> a[i].userId != a[j].userId
  }

  predicate JobValid(j: JobPost) {
    && j.title != "" && j.description != "" && j.category != "" && j.location != ""
    && DistinctApplicants(j.applicants)
  }

  /** An absent `requirements` list is stored empty. */
  function GetOrEmpty(o: Option<seq<string>>): seq<string> {
    if o.Some? then o.value else []
  }

  /** `new JobPost({...})` followed by `save()`: `title`, `description`,
      `category`, `salary` and `location` are required, `salaryType`
      defaults to monthly, `status` is always open and no one has applied. */
  function NewJob(id: ObjectId, employerId: ObjectId, f: JobFields, now: int): (r: Outcome<JobPost>)
    ensures r.Ok? <==>
      && Given(f.title) && Given(f.description) && Given(f.category) && Given(f.location)
      && f.salary.Some?
      && (f.salaryType.Some? ==> ParseSalaryType(f.salaryType.value).Some?)
    ensures r.Fail? ==> r.error == ServerError
    ensures r.Ok? ==>
      && JobValid(r.value)
      && r.value.id == id && r.value.employerId == employerId
      && r.value.status == Open && r.value.applicants == []
    ensures r.Ok? ==>
      && r.value.title == f.title.value && r.value.description == f.description.value
      && r.value.category == f.category.value && r.value.salary == f.salary.value
      && r.value.location == f.location.value
      && r.value.requirements == GetOrEmpty(f.requirements) && r.value.createdAt == now
    ensures r.Ok? && f.salaryType.Some? ==> SalaryTypeName(r.value.salaryType) == f.salaryType.value
    ensures r.Ok? && f.salaryType.None? ==> r.value.salaryType == MonthlySalary
  {
    if !Given(f.title) || !Given(f.description) || !Given(f.category) || !Given(f.location)
       || f.salary.None? then Fail(ServerError)
    else
      var salaryType := if f.salaryType.None? then Some(MonthlySalary) else ParseSalaryType(f.salaryType.value);
      if salaryType.None? then Fail(ServerError)
      else Ok(JobPost(
        id, employerId, f.title.value, f.description.value, f.category.value, f.salary.value,
        salaryType.value, f.location.value, [], Open,
        GetOrEmpty(f.requirements), now))
  }

  /** `JobPost.findById(id)`. */
  function FindJob(jobs: seq<JobPost>, id: ObjectId): (r: Option<nat>)
    ensures r.Some? ==> r.value < |jobs| && jobs[r.value].id == id
    ensures r.None? <==> forall j :: j in jobs ==> j.id != id
  {
    FindIndex(jobs, (j: JobPost) => j.id == id)
  }
}
