/** The employee list page: the paged, searchable list, its status counts
    and colours, and the delete confirmation. */
module EmployeeListPage {

  import opened Wrappers
  import opened Seqs
  import Pagination
  import Ui

  /** Rows fetched per page (`per_page: 10`). */
  const PerPage: nat := 10

  /** An employee's `employment_status` as stored; the page compares it as text. */
  datatype Employee = Employee(id: nat, employmentStatus: string)

  /** Every page the pagination control offers returns at least one employee:
      the first row the query for that page asks for exists. */
  lemma OfferedPagesAreNonEmpty(total: nat, page: nat, search: string)
    requires 1 <= page <= Pagination.PageCount(total, PerPage)
    ensures var q := Pagination.Query(page, PerPage, search);
            (q.page - 1) * q.perPage < total
  {
    var c := Pagination.PageCount(total, PerPage);
    assert (page - 1) * PerPage <= (c - 1) * PerPage;
  }

  predicate IsActive(e: Employee) { e.employmentStatus == "active" }
  predicate IsOnLeave(e: Employee) { e.employmentStatus == "on_leave" }

  /** The "Active" and "On Leave" cards count employees on the current page. */
  function StatusCounts(page: seq<Employee>): (r: (nat, nat))
    ensures r.0 == Count(IsActive, page) && r.1 == Count(IsOnLeave, page)
    ensures r.0 + r.1 <= |page|
  {
    DisjointCounts(IsActive, IsOnLeave, page);
    (Count(IsActive, page), Count(IsOnLeave, page))
  }

  /** `getStatusColor`: active, on leave and suspended have colours; every
      other status, terminated included, is the default. */
  function StatusColour(status: string): (c: Ui.Colour)
    ensures c == Ui.Success <==> status == "active"
    ensures c == Ui.Warning <==> status == "on_leave"
    ensures c == Ui.Error <==> status == "suspended"
    ensures c == Ui.Default <==> status !in {"active", "on_leave", "suspended"}
  {
    match status
    case "active" => Ui.Success
    case "on_leave" => Ui.Warning
    case "suspended" => Ui.Error
    case _ => Ui.Default
  }

  /** The cards and the chips agree: an employee counted as active has the
      success chip, one counted on leave the warning chip. */
  lemma CountsMatchChips(e: Employee)
    ensures IsActive(e) <==> StatusColour(e.employmentStatus) == Ui.Success
    ensures IsOnLeave(e) <==> StatusColour(e.employmentStatus) == Ui.Warning
  {
  }

  /** The delete dialog's state. */
  datatype DeleteDialog = DeleteDialog(open: bool, target: Option<Employee>)

  datatype DeleteStep = DeleteStep(dialog: DeleteDialog, call: Option<nat>)

  /** `handleDeleteConfirm`: with no employee chosen nothing happens; otherwise
      that employee is deleted and, on success, the dialog closes and forgets it. */
  function DeleteConfirm(d: DeleteDialog, succeeded: bool): (r: DeleteStep)
    ensures r.call.None? <==> d.target.None?
    ensures d.target.None? ==> r.dialog == d
    ensures r.call.Some? ==> r.call.value == d.target.value.id
    ensures r.call.Some? && succeeded ==> r.dialog == DeleteDialog(false, None)
    ensures !succeeded ==> r.dialog == d
  {
    match d.target
    case None => DeleteStep(d, None)
    case Some(e) => DeleteStep(if succeeded then DeleteDialog(false, None) else d, Some(e.id))
  }

  /** `handleDeleteClick` followed by confirmation deletes exactly the clicked employee. */
  lemma DeleteClickedEmployee(e: Employee, succeeded: bool)
    ensures DeleteConfirm(DeleteDialog(true, Some(e)), succeeded).call == Some(e.id)
  {
  }
}
