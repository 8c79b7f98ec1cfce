/** The four payroll, attendance and recruitment tables together with the
    tables their foreign keys point at, and the declared referential actions:
    an INSERT must name existing parents; deleting an employee, a period, a
    posting or a candidate cascades to the rows that belong to it; deleting a
    user nulls the approver and evaluator columns; a shift still in use by an
    attendance row cannot be deleted. */
module Database {

  import opened Wrappers
  import opened Tables
  import PP = PayrollPeriods
  import PR = PayrollRecords
  import AT = Attendances
  import JA = JobApplications

  /** The parent tables appear by their ids only. */
  datatype Db = Db(
    users: set<nat>,
    employees: set<nat>,
    postings: set<nat>,
    candidates: set<nat>,
    shifts: set<nat>,
    periods: Table<PP.PayrollPeriod>,
    records: Table<PR.PayrollRecord>,
    attendances: Table<AT.Attendance>,
    applications: Table<JA.JobApplication>)

  /** A nullable foreign key: empty, or naming an existing parent. */
  predicate RefOk(r: Option<nat>, parents: set<nat>) {
    r.None? || r.value in parents
  }

  predicate PeriodRefsOk(db: Db) {
    forall id :: id in db.periods.rows ==> RefOk(db.periods.rows[id].approvedBy, db.users)
  }

  predicate RecordRefsOk(db: Db) {
    forall id :: id in db.records.rows ==>
      db.records.rows[id].employeeId in db.employees && db.records.rows[id].periodId in db.periods.rows
  }

  predicate AttendanceRefsOk(db: Db) {
    forall id :: id in db.attendances.rows ==>
      db.attendances.rows[id].employeeId in db.employees && RefOk(db.attendances.rows[id].shiftId, db.shifts)
  }

  predicate ApplicationRefsOk(db: Db) {
    forall id :: id in db.applications.rows ==>
      && db.applications.rows[id].postingId in db.postings
      && db.applications.rows[id].candidateId in db.candidates
      && RefOk(db.applications.rows[id].evaluatedBy, db.users)
  }

  /** Every declared key and foreign key holds. */
  predicate Consistent(db: Db) {
    && IdsBelowNext(db.periods)
    && Valid(db.records, PR.Key)
    && Valid(db.attendances, AT.Key)
    && Valid(db.applications, JA.Key)
    && PeriodRefsOk(db) && RecordRefsOk(db) && AttendanceRefsOk(db) && ApplicationRefsOk(db)
  }

  /** A database with parents but no rows in the four tables. */
  function Fresh(users: set<nat>, employees: set<nat>, postings: set<nat>, candidates: set<nat>, shifts: set<nat>): (db: Db)
    ensures Consistent(db)
  {
    Db(users, employees, postings, candidates, shifts, Empty(), Empty(), Empty(), Empty())
  }

  /** INSERT INTO payroll_periods. */
  function InsertPeriod(db: Db, n: PP.NewPeriod): (r: Result<Db, DbError>)
    ensures r.Failure? <==> PP.NewRow(n).Failure? || !RefOk(PP.NewRow(n).value.approvedBy, db.users)
    ensures r.Success? ==> r.value == db.(periods := Add(db.periods, PP.NewRow(n).value))
    ensures r.Success? && Consistent(db) ==> Consistent(r.value)
  {
    var row :- PP.NewRow(n);
    if !RefOk(row.approvedBy, db.users) then Failure(ForeignKeyViolation("approved_by"))
    else Success(db.(periods := Add(db.periods, row)))
  }

  /** INSERT INTO payroll_records: the employee and the period must exist and
      the pair must be new. */
  function InsertRecord(db: Db, n: PR.NewRecord): (r: Result<Db, DbError>)
    ensures r.Failure? <==>
              || PR.NewRow(n).Failure?
              || PR.NewRow(n).value.employeeId !in db.employees
              || PR.NewRow(n).value.periodId !in db.periods.rows
              || HasKey(db.records, PR.Key, PR.Key(PR.NewRow(n).value))
    ensures r.Failure? && PR.NewRow(n).Success?
            && PR.NewRow(n).value.employeeId in db.employees && PR.NewRow(n).value.periodId in db.periods.rows
            ==> r.error == DuplicateKey
    ensures r.Success? ==> r.value == db.(records := Add(db.records, PR.NewRow(n).value))
    ensures r.Success? && Consistent(db) ==> Consistent(r.value)
  {
    var row :- PR.NewRow(n);
    if row.employeeId !in db.employees then Failure(ForeignKeyViolation("employee_id"))
    else if row.periodId !in db.periods.rows then Failure(ForeignKeyViolation("payroll_period_id"))
    else
      var records :- Insert(db.records, PR.Key, row);
      Success(db.(records := records))
  }

  /** INSERT INTO attendances: the employee (and the shift, when given) must
      exist and the employee must have no row for that day yet. */
  function InsertAttendance(db: Db, n: AT.NewAttendance): (r: Result<Db, DbError>)
    ensures r.Failure? <==>
              || AT.NewRow(n).Failure?
              || AT.NewRow(n).value.employeeId !in db.employees
              || !RefOk(AT.NewRow(n).value.shiftId, db.shifts)
              || HasKey(db.attendances, AT.Key, AT.Key(AT.NewRow(n).value))
    ensures r.Success? ==> r.value == db.(attendances := Add(db.attendances, AT.NewRow(n).value))
    ensures r.Success? && Consistent(db) ==> Consistent(r.value)
  {
    var row :- AT.NewRow(n);
    if row.employeeId !in db.employees then Failure(ForeignKeyViolation("employee_id"))
    else if !RefOk(row.shiftId, db.shifts) then Failure(ForeignKeyViolation("shift_id"))
    else
      var attendances :- Insert(db.attendances, AT.Key, row);
      Success(db.(attendances := attendances))
  }

  /** INSERT INTO job_applications: posting, candidate (and evaluator, when
      given) must exist and the candidate must not have applied to that posting. */
  function InsertApplication(db: Db, n: JA.NewApplication): (r: Result<Db, DbError>)
    ensures r.Failure? <==>
              || JA.NewRow(n).Failure?
              || JA.NewRow(n).value.postingId !in db.postings
              || JA.NewRow(n).value.candidateId !in db.candidates
              || !RefOk(JA.NewRow(n).value.evaluatedBy, db.users)
              || HasKey(db.applications, JA.Key, JA.Key(JA.NewRow(n).value))
    ensures r.Success? ==> r.value == db.(applications := Add(db.applications, JA.NewRow(n).value))
    ensures r.Success? && Consistent(db) ==> Consistent(r.value)
  {
    var row :- JA.NewRow(n);
    if row.postingId !in db.postings then Failure(ForeignKeyViolation("job_posting_id"))
    else if row.candidateId !in db.candidates then Failure(ForeignKeyViolation("candidate_id"))
    else if !RefOk(row.evaluatedBy, db.users) then Failure(ForeignKeyViolation("evaluated_by"))
    else
      var applications :- Insert(db.applications, JA.Key, row);
      Success(db.(applications := applications))
  }

  /** Deleting an employee cascades to exactly that employee's payroll
      records and attendance rows; nothing else changes. */
  function DeleteEmployee(db: Db, e: nat): (r: Db)
    ensures r.employees == db.employees - {e}
    ensures forall id :: id in r.records.rows <==> id in db.records.rows && db.records.rows[id].employeeId != e
    ensures forall id :: id in r.records.rows ==> r.records.rows[id] == db.records.rows[id]
    ensures forall id :: id in r.attendances.rows <==>
              id in db.attendances.rows && db.attendances.rows[id].employeeId != e
    ensures forall id :: id in r.attendances.rows ==> r.attendances.rows[id] == db.attendances.rows[id]
    ensures r.(employees := db.employees, records := db.records, attendances := db.attendances) == db
    ensures Consistent(db) ==> Consistent(r)
  {
    var r := db.(employees := db.employees - {e},
                 records := DeleteWhere(db.records, (x: PR.PayrollRecord) => x.employeeId == e),
                 attendances := DeleteWhere(db.attendances, (x: AT.Attendance) => x.employeeId == e));
    assert Consistent(db) ==> Consistent(r) by {
      if Consistent(db) {
        DeleteWherePreservesValid(db.records, PR.Key, (x: PR.PayrollRecord) => x.employeeId == e);
        DeleteWherePreservesValid(db.attendances, AT.Key, (x: AT.Attendance) => x.employeeId == e);
      }
    }
    r
  }

  /** Deleting a period removes it and cascades to exactly its payroll records. */
  function DeletePeriod(db: Db, p: nat): (r: Db)
    ensures r.periods.rows.Keys == db.periods.rows.Keys - {p}
    ensures forall id :: id in r.records.rows <==> id in db.records.rows && db.records.rows[id].periodId != p
    ensures forall id :: id in r.records.rows ==> r.records.rows[id] == db.records.rows[id]
    ensures r.(periods := db.periods, records := db.records) == db
    ensures Consistent(db) ==> Consistent(r)
  {
    var r := db.(periods := Remove(db.periods, p),
                 records := DeleteWhere(db.records, (x: PR.PayrollRecord) => x.periodId == p));
    assert Consistent(db) ==> Consistent(r) by {
      if Consistent(db) {
        DeleteWherePreservesValid(db.records, PR.Key, (x: PR.PayrollRecord) => x.periodId == p);
      }
    }
    r
  }

  /** Deleting a job posting cascades to exactly its applications. */
  function DeletePosting(db: Db, p: nat): (r: Db)
    ensures r.postings == db.postings - {p}
    ensures forall id :: id in r.applications.rows <==>
              id in db.applications.rows && db.applications.rows[id].postingId != p
    ensures forall id :: id in r.applications.rows ==> r.applications.rows[id] == db.applications.rows[id]
    ensures r.(postings := db.postings, applications := db.applications) == db
    ensures Consistent(db) ==> Consistent(r)
  {
    var r := db.(postings := db.postings - {p},
                 applications := DeleteWhere(db.applications, (x: JA.JobApplication) => x.postingId == p));
    assert Consistent(db) ==> Consistent(r) by {
      if Consistent(db) {
        DeleteWherePreservesValid(db.applications, JA.Key, (x: JA.JobApplication) => x.postingId == p);
      }
    }
    r
  }

  /** Deleting a candidate cascades to exactly the candidate's applications. */
  function DeleteCandidate(db: Db, c: nat): (r: Db)
    ensures r.candidates == db.candidates - {c}
    ensures forall id :: id in r.applications.rows <==>
              id in db.applications.rows && db.applications.rows[id].candidateId != c
    ensures forall id :: id in r.applications.rows ==> r.applications.rows[id] == db.applications.rows[id]
    ensures r.(candidates := db.candidates, applications := db.applications) == db
    ensures Consistent(db) ==> Consistent(r)
  {
    var r := db.(candidates := db.candidates - {c},
                 applications := DeleteWhere(db.applications, (x: JA.JobApplication) => x.candidateId == c));
    assert Consistent(db) ==> Consistent(r) by {
      if Consistent(db) {
        DeleteWherePreservesValid(db.applications, JA.Key, (x: JA.JobApplication) => x.candidateId == c);
      }
    }
    r
  }

  /** Deleting a user keeps every period and every application: the periods
      the user approved lose their approver, the applications the user
      evaluated lose their evaluator, and no other column changes. */
  function DeleteUser(db: Db, u: nat): (r: Db)
    ensures r.users == db.users - {u}
    ensures r.periods.rows.Keys == db.periods.rows.Keys
    ensures r.applications.rows.Keys == db.applications.rows.Keys
    ensures forall id :: id in r.periods.rows ==>
              && r.periods.rows[id].approvedBy != Some(u)
              && r.periods.rows[id].(approvedBy := db.periods.rows[id].approvedBy) == db.periods.rows[id]
    ensures forall id :: id in r.applications.rows ==>
              && r.applications.rows[id].evaluatedBy != Some(u)
              && r.applications.rows[id].(evaluatedBy := db.applications.rows[id].evaluatedBy)
                 == db.applications.rows[id]
    ensures r.(users := db.users, periods := db.periods, applications := db.applications) == db
    ensures Consistent(db) ==> Consistent(r)
  {
    var forgetApprover := (p: PP.PayrollPeriod) => PP.ForgetApprover(p, u);
    var forgetEvaluator := (a: JA.JobApplication) => JA.ForgetEvaluator(a, u);
    var r := db.(users := db.users - {u},
                 periods := UpdateAll(db.periods, forgetApprover),
                 applications := UpdateAll(db.applications, forgetEvaluator));
    assert Consistent(db) ==> Consistent(r) by {
      if Consistent(db) {
        UpdateAllPreservesValid(db.applications, JA.Key, forgetEvaluator);
      }
    }
    r
  }

  /** Some attendance row still names the shift. */
  predicate ShiftInUse(db: Db, s: nat) {
    exists id :: id in db.attendances.rows && db.attendances.rows[id].shiftId == Some(s)
  }

  /** `shift_id` declares no delete action, so a shift that attendance rows
      still name cannot be deleted. */
  function DeleteShift(db: Db, s: nat): (r: Result<Db, DbError>)
    ensures r.Failure? <==> ShiftInUse(db, s)
    ensures r.Failure? ==> r.error == ForeignKeyViolation("shift_id")
    ensures r.Success? ==> r.value == db.(shifts := db.shifts - {s})
    ensures r.Success? && Consistent(db) ==> Consistent(r.value)
  {
    if ShiftInUse(db, s) then Failure(ForeignKeyViolation("shift_id"))
    else Success(db.(shifts := db.shifts - {s}))
  }

  /** In a consistent database an employee has at most one payroll record per
      period and at most one attendance row per day, and a candidate at most
      one application per posting. */
  lemma OneRowPerKey(db: Db, employee: nat, period: nat, day: nat, posting: nat, candidate: nat)
    requires Consistent(db)
    ensures |RowsWithKey(db.records, PR.Key, (employee, period))| <= 1
    ensures |RowsWithKey(db.attendances, AT.Key, (employee, day))| <= 1
    ensures |RowsWithKey(db.applications, JA.Key, (posting, candidate))| <= 1
  {
    AtMostOneRowPerKey(db.records, PR.Key, (employee, period));
    AtMostOneRowPerKey(db.attendances, AT.Key, (employee, day));
    AtMostOneRowPerKey(db.applications, JA.Key, (posting, candidate));
  }

  /** A second payroll record for the same employee and period is refused,
      whatever its amounts. */
  lemma DuplicateRecordRefused(db: Db, first: PR.NewRecord, second: PR.NewRecord)
    requires InsertRecord(db, first).Success?
    requires PR.NewRow(second).Success?
    requires PR.Key(PR.NewRow(second).value) == PR.Key(PR.NewRow(first).value)
    ensures InsertRecord(InsertRecord(db, first).value, second) == Failure(DuplicateKey)
  {
    var after := InsertRecord(db, first).value;
    var row := PR.NewRow(first).value;
    assert after.records.rows[db.records.nextId] == row;
    assert HasKey(after.records, PR.Key, PR.Key(row));
  }
}
