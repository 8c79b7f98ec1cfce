/** The role editor of the role-management page: a dialog that creates a
    new role or edits an existing one, with a checkbox per permission. */
module RoleManagementPage {

  import opened Wrappers
  import opened Seqs
  import opened Selection

  /** A role as listed: its id, its name and the names of its permissions. */
  datatype Role = Role(id: nat, name: string, permissions: seq<string>)

  /** The dialog's state: whether it is open, the role being edited (None
      when creating), the name field and the ticked permission names. */
  datatype Dialog = Dialog(open: bool, editing: Option<Role>, roleName: string, selected: seq<string>)

  /** The state before the dialog is ever opened. */
  const Closed: Dialog := Dialog(false, None, "", [])

  /** Opening the dialog: preloaded from `role` when editing, blank when creating. */
  function OpenDialog(role: Option<Role>): (d: Dialog)
    ensures d.open && d.editing == role
    ensures role.Some? ==> d.roleName == role.value.name && d.selected == role.value.permissions
    ensures role.None? ==> d.roleName == "" && d.selected == []
  {
    match role
    case Some(r) => Dialog(true, Some(r), r.name, r.permissions)
    case None => Dialog(true, None, "", [])
  }

  /** Closing the dialog forgets the role, the name and the selection. */
  function CloseDialog(d: Dialog): (r: Dialog)
    ensures !r.open && r.editing.None? && r.roleName == "" && r.selected == []
    ensures OpenDialog(None) == r.(open := true)
  {
    Closed
  }

  /** Ticking or unticking one permission box. */
  function TogglePermission(d: Dialog, permission: string): (r: Dialog)
    ensures r.open == d.open && r.editing == d.editing && r.roleName == d.roleName
    ensures permission in r.selected <==> permission !in d.selected
    ensures forall p :: p != permission ==> (p in r.selected <==> p in d.selected)
  {
    d.(selected := Toggle(d.selected, permission))
  }

  /** The request the save button makes. */
  datatype SaveRequest =
    | UpdateRole(id: nat, name: string, permissions: seq<string>)
    | CreateRole(name: string, permissions: seq<string>)

  /** Save updates the role being edited, or creates a role when there is none;
      either way it sends the name field and the ticked permissions. */
  function SaveRequestOf(d: Dialog): (q: SaveRequest)
    ensures q.UpdateRole? <==> d.editing.Some?
    ensures q.UpdateRole? ==> q.id == d.editing.value.id
    ensures q.name == d.roleName && q.permissions == d.selected
  {
    match d.editing
    case Some(r) => UpdateRole(r.id, d.roleName, d.selected)
    case None => CreateRole(d.roleName, d.selected)
  }

  /** After the request: the dialog closes when it succeeded and stays as it
      was when it failed. */
  function AfterSave(d: Dialog, succeeded: bool): (r: Dialog)
    ensures succeeded ==> r == CloseDialog(d)
    ensures !succeeded ==> r == d
  {
    if succeeded then CloseDialog(d) else d
  }

  /** Opening an existing role and saving at once writes the role back unchanged. */
  lemma SaveUneditedRole(role: Role)
    ensures SaveRequestOf(OpenDialog(Some(role))) == UpdateRole(role.id, role.name, role.permissions)
  {
  }

  /** Ticking a permission the role lacks and unticking it again leaves the
      request exactly as if the box had never been touched. */
  lemma TickUntickUnchanged(d: Dialog, permission: string)
    requires permission !in d.selected
    ensures SaveRequestOf(TogglePermission(TogglePermission(d, permission), permission)) == SaveRequestOf(d)
  {
    ToggleTwiceAbsent(d.selected, permission);
  }

  /** Toggles keep a duplicate-free permission list duplicate-free, so a
      permission is never sent twice. */
  lemma TogglePermissionNoDuplicates(d: Dialog, permission: string)
    requires NoDuplicates(d.selected)
    ensures NoDuplicates(TogglePermission(d, permission).selected)
  {
    ToggleKeepsNoDuplicates(d.selected, permission);
  }
}
