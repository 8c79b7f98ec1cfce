/** The `job_applications` table: a candidate's application to a job posting
    as it moves through the hiring pipeline; one per (posting, candidate). */
module JobApplications {

  import opened Wrappers
  import opened Numeric
  import opened Tables

  /** The `stage` enum column, in pipeline order; `applied` is its default. */
  datatype Stage =
    | Applied | Screening | PhoneInterview | TechnicalInterview | OnsiteInterview
    | Offer | Hired | Rejected | Withdrawn

  function StageName(s: Stage): string {
    match s
    case Applied => "applied"
    case Screening => "screening"
    case PhoneInterview => "phone_interview"
    case TechnicalInterview => "technical_interview"
    case OnsiteInterview => "onsite_interview"
    case Offer => "offer"
    case Hired => "hired"
    case Rejected => "rejected"
    case Withdrawn => "withdrawn"
  }

  /** The nine stage names, in the column's declared order. */
  const StageNames: seq<string> :=
    ["applied", "screening", "phone_interview", "technical_interview", "onsite_interview",
     "offer", "hired", "rejected", "withdrawn"]

  /** Reading the enum column's text: only the nine listed stages are accepted. */
  function ParseStage(text: string): (r: Option<Stage>)
    ensures r.Some? <==> text in StageNames
    ensures r.Some? ==> StageName(r.value) == text
  {
    if text == "applied" then Some(Applied)
    else if text == "screening" then Some(Screening)
    else if text == "phone_interview" then Some(PhoneInterview)
    else if text == "technical_interview" then Some(TechnicalInterview)
    else if text == "onsite_interview" then Some(OnsiteInterview)
    else if text == "offer" then Some(Offer)
    else if text == "hired" then Some(Hired)
    else if text == "rejected" then Some(Rejected)
    else if text == "withdrawn" then Some(Withdrawn)
    else None
  }

  lemma StageRoundTrip(s: Stage)
    ensures ParseStage(StageName(s)) == Some(s)
  {
  }

  /** The `status` enum column; `active` is its default. */
  datatype ApplicationStatus = Active | OnHold | Closed

  function ApplicationStatusName(s: ApplicationStatus): string {
    match s
    case Active => "active"
    case OnHold => "on_hold"
    case Closed => "closed"
  }

  function ParseApplicationStatus(text: string): (r: Option<ApplicationStatus>)
    ensures r.Some? <==> text in {"active", "on_hold", "closed"}
    ensures r.Some? ==> ApplicationStatusName(r.value) == text
  {
    if text == "active" then Some(Active)
    else if text == "on_hold" then Some(OnHold)
    else if text == "closed" then Some(Closed)
    else None
  }

  lemma ApplicationStatusRoundTrip(s: ApplicationStatus)
    ensures ParseApplicationStatus(ApplicationStatusName(s)) == Some(s)
  {
  }

  /** A stored application. */
  datatype JobApplication = JobApplication(
    postingId: nat,
    candidateId: nat,
    stage: Stage,
    status: ApplicationStatus,
    coverLetter: Option<string>,
    expectedSalary: Option<Cents>,
    availableFrom: Option<Day>,
    rating: Option<int>,
    evaluationNotes: Option<string>,
    evaluatedBy: Option<nat>,
    appliedDate: Day,
    lastActivityDate: Option<Day>)

  /** The unique index `(job_posting_id, candidate_id)`. */
  function Key(a: JobApplication): (nat, nat) {
    (a.postingId, a.candidateId)
  }

  /** The columns an INSERT supplies; None is a column left out. */
  datatype NewApplication = NewApplication(
    postingId: Option<nat>,
    candidateId: Option<nat>,
    stage: Option<string>,
    status: Option<string>,
    coverLetter: Option<string>,
    expectedSalary: Option<Cents>,
    availableFrom: Option<Day>,
    rating: Option<int>,
    evaluationNotes: Option<string>,
    evaluatedBy: Option<nat>,
    appliedDate: Option<Day>,
    lastActivityDate: Option<Day>)

  function MissingColumns(n: NewApplication): (cols: seq<string>)
    ensures |cols| == 0 <==> n.postingId.Some? && n.candidateId.Some? && n.appliedDate.Some?
  {
    (if n.postingId.None? then ["job_posting_id"] else [])
    + (if n.candidateId.None? then ["candidate_id"] else [])
    + (if n.appliedDate.None? then ["applied_date"] else [])
  }

  predicate BadStage(n: NewApplication) {
    n.stage.Some? && ParseStage(n.stage.value).None?
  }

  predicate BadStatus(n: NewApplication) {
    n.status.Some? && ParseApplicationStatus(n.status.value).None?
  }

  /** The row an INSERT stores: refused when the posting, candidate or applied
      date is missing or either enum text is invalid; otherwise an omitted
      stage is applied, an omitted status is active, and the nullable columns
      stay empty unless given. */
  function NewRow(n: NewApplication): (r: Result<JobApplication, DbError>)
    ensures r.Failure? <==> |MissingColumns(n)| > 0 || BadStage(n) || BadStatus(n)
    ensures r.Failure? && |MissingColumns(n)| > 0 ==> r.error == MissingValue(MissingColumns(n)[0])
    ensures r.Success? ==>
              && Some(r.value.postingId) == n.postingId && Some(r.value.candidateId) == n.candidateId
              && Some(r.value.appliedDate) == n.appliedDate
              && r.value.coverLetter == n.coverLetter && r.value.expectedSalary == n.expectedSalary
              && r.value.availableFrom == n.availableFrom && r.value.rating == n.rating
              && r.value.evaluationNotes == n.evaluationNotes && r.value.evaluatedBy == n.evaluatedBy
              && r.value.lastActivityDate == n.lastActivityDate
    ensures r.Success? ==>
              && (n.stage.None? ==> r.value.stage == Applied)
              && (n.stage.Some? ==> StageName(r.value.stage) == n.stage.value)
              && (n.status.None? ==> r.value.status == Active)
              && (n.status.Some? ==> ApplicationStatusName(r.value.status) == n.status.value)
  {
    var missing := MissingColumns(n);
    if |missing| > 0 then Failure(MissingValue(missing[0]))
    else if BadStage(n) then Failure(InvalidEnum("stage", n.stage.value))
    else if BadStatus(n) then Failure(InvalidEnum("status", n.status.value))
    else
      Success(JobApplication(
        n.postingId.value, n.candidateId.value,
        if n.stage.Some? then ParseStage(n.stage.value).value else Applied,
        if n.status.Some? then ParseApplicationStatus(n.status.value).value else Active,
        n.coverLetter, n.expectedSalary, n.availableFrom, n.rating, n.evaluationNotes,
        n.evaluatedBy, n.appliedDate.value, n.lastActivityDate))
  }

  /** The payload naming only the posting, the candidate and the day of application. */
  function RequiredOnly(posting: nat, candidate: nat, applied: Day): NewApplication {
    NewApplication(Some(posting), Some(candidate), None, None, None, None, None, None, None, None,
                   Some(applied), None)
  }

  /** A new application with only its required columns is an active
      application at the first stage, not yet evaluated. */
  lemma FreshApplicationIsActiveAtApplied(posting: nat, candidate: nat, applied: Day)
    ensures NewRow(RequiredOnly(posting, candidate, applied))
            == Success(JobApplication(posting, candidate, Applied, Active, None, None, None, None, None,
                                      None, applied, None))
  {
  }

  /** `ON DELETE SET NULL` on `evaluated_by` for the deleted user `user`. */
  function ForgetEvaluator(a: JobApplication, user: nat): (r: JobApplication)
    ensures r.evaluatedBy != Some(user)
    ensures a.evaluatedBy != Some(user) ==> r == a
    ensures r.(evaluatedBy := a.evaluatedBy) == a
  {
    if a.evaluatedBy == Some(user) then a.(evaluatedBy := None) else a
  }
}
