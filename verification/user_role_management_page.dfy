/** The user-role page: a paged list of users and a dialog that assigns
    roles to one user by ticking role names. */
module UserRoleManagementPage {

  import opened Wrappers
  import opened Seqs
  import opened Selection
  import Pagination

  /** Rows fetched per page (`per_page: 10`). */
  const PerPage: nat := 10

  /** `Math.ceil(total / 10)` as shown by the pagination control. */
  function PageCount(total: nat): (r: nat)
    ensures r * PerPage >= total
    ensures r == 0 || (r - 1) * PerPage < total
  {
    Pagination.PageCount(total, PerPage)
  }

  /** Every user in the result lies on a page the control offers. */
  lemma EveryUserReachable(total: nat, i: nat)
    requires i < total
    ensures 1 <= Pagination.PageOf(i, PerPage) <= PageCount(total)
  {
    Pagination.PageCountExact(total, PerPage, i);
  }

  /** The list request for a page and the search box's text. */
  function QueryOf(page: nat, search: string): (q: Pagination.ListQuery)
    ensures q.page == page && q.perPage == PerPage
    ensures q.search.None? <==> search == ""
  {
    Pagination.Query(page, PerPage, search)
  }

  /** A user as listed: id and role names. */
  datatype User = User(id: nat, roles: seq<string>)

  /** The dialog's state. */
  datatype Dialog = Dialog(open: bool, editing: Option<User>, selected: seq<string>)

  const Closed: Dialog := Dialog(false, None, [])

  /** Opening the dialog for `user` ticks exactly the user's current roles. */
  function OpenDialog(user: User): (d: Dialog)
    ensures d.open && d.editing == Some(user) && d.selected == user.roles
  {
    Dialog(true, Some(user), user.roles)
  }

  /** Closing the dialog forgets the user and the selection. */
  function CloseDialog(d: Dialog): (r: Dialog)
    ensures !r.open && r.editing.None? && r.selected == []
  {
    Closed
  }

  function ToggleRole(d: Dialog, role: string): (r: Dialog)
    ensures r.open == d.open && r.editing == d.editing
    ensures role in r.selected <==> role !in d.selected
    ensures forall x :: x != role ==> (x in r.selected <==> x in d.selected)
  {
    d.(selected := Toggle(d.selected, role))
  }

  /** The request the save button makes: the edited user's id and the ticked
      roles; nothing at all when no user is being edited. */
  function SaveRequestOf(d: Dialog): (q: Option<(nat, seq<string>)>)
    ensures q.None? <==> d.editing.None?
    ensures q.Some? ==> q.value == (d.editing.value.id, d.selected)
  {
    match d.editing
    case None => None
    case Some(u) => Some((u.id, d.selected))
  }

  /** After closing, save sends nothing. */
  lemma SaveAfterCloseIsNoOp(d: Dialog)
    ensures SaveRequestOf(CloseDialog(d)).None?
  {
  }

  /** Opening a user and saving at once sends back the user's own roles. */
  lemma SaveUneditedUser(user: User)
    ensures SaveRequestOf(OpenDialog(user)) == Some((user.id, user.roles))
  {
  }

  /** Ticking a role the user lacks and unticking it again changes nothing. */
  lemma TickUntickUnchanged(d: Dialog, role: string)
    requires role !in d.selected
    ensures ToggleRole(ToggleRole(d, role), role) == d
  {
    ToggleTwiceAbsent(d.selected, role);
  }

  lemma ToggleRoleNoDuplicates(d: Dialog, role: string)
    requires NoDuplicates(d.selected)
    ensures NoDuplicates(ToggleRole(d, role).selected)
  {
    ToggleKeepsNoDuplicates(d.selected, role);
  }
}
