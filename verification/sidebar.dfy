/** The sidebar's navigation menu: the fixed list of items, the filter that
    hides role-restricted items from users without a matching role, and the
    highlight of the item for the current path. */
module Sidebar {

  import opened Wrappers
  import opened Seqs

  /** A menu entry; `roles` of None means "shown to everyone". */
  datatype MenuItem = MenuItem(textKey: string, path: string, roles: Option<seq<string>>)

  const Managers: seq<string> := ["admin", "hr_manager", "dept_manager"]

  const MenuItems: seq<MenuItem> := [
    MenuItem("common.dashboard", "/dashboard", None),
    MenuItem("common.employees", "/employees", Some(Managers)),
    MenuItem("common.attendance", "/attendance", Some(Managers)),
    MenuItem("leave.approvals", "/leave-approvals", Some(Managers)),
    MenuItem("common.leave", "/leave", None),
    MenuItem("common.calendar", "/calendar", None),
    MenuItem("common.payroll", "/payroll", Some(["admin", "finance_manager"])),
    MenuItem("common.performance", "/performance", Some(["admin", "hr_manager"])),
    MenuItem("common.recruitment", "/recruitment", Some(["admin", "hr_manager"])),
    MenuItem("common.onboarding", "/onboarding", Some(["admin", "hr_manager"])),
    MenuItem("common.reports", "/reports", Some(["admin", "hr_manager", "finance_manager"])),
    MenuItem("common.auditLogs", "/audit-logs", Some(["admin"])),
    MenuItem("admin.emailHistory.title", "/scheduled-email-history", Some(["admin"])),
    MenuItem("common.roleManagement", "/roles", Some(["admin"])),
    MenuItem("common.userRoleManagement", "/user-roles", Some(["admin"])),
    MenuItem("common.myProfile", "/my-profile", Some(["employee"])),
    MenuItem("common.myPayslips", "/my-payslips", Some(["employee"])),
    MenuItem("leave.myLeaves", "/my-leaves", Some(["employee"]))
  ]

  /** The employee self-service links. */
  const SelfServicePaths: set<string> := {"/my-profile", "/my-payslips", "/my-leaves"}

  /** Whether `item` is listed; `userRoles` is None while there is no user
      (or the user has no role list). */
  function Shown(item: MenuItem, userRoles: Option<seq<string>>): (b: bool)
    ensures item.roles.None? ==> b
    ensures item.roles.Some? && userRoles.None? ==> !b
    ensures item.roles.Some? && userRoles.Some? ==>
              (b <==> exists i :: 0 <= i < |item.roles.value| && item.roles.value[i] in userRoles.value)
  {
    if item.roles.None? then true
    else if userRoles.None? then false
    else Intersects(item.roles.value, userRoles.value)
  }

  /** The items listed for the user, in menu order. */
  function VisibleItems(userRoles: Option<seq<string>>): (r: seq<MenuItem>)
    ensures Subseq(r, MenuItems)
    ensures forall item :: item in r <==> item in MenuItems && Shown(item, userRoles)
  {
    Filter(item => Shown(item, userRoles), MenuItems)
  }

  /** Items without a role list are listed for everyone, signed in or not. */
  lemma UnrestrictedAlwaysVisible(userRoles: Option<seq<string>>, i: nat)
    requires i < |MenuItems| && MenuItems[i].roles.None?
    ensures MenuItems[i] in VisibleItems(userRoles)
  {
  }

  /** A user whose only role is `admin` sees none of the self-service links. */
  lemma AdminSeesNoSelfService()
    ensures forall item :: item in VisibleItems(Some(["admin"])) ==> item.path !in SelfServicePaths
  {
    var admin := Some(["admin"]);
    assert !Shown(MenuItems[15], admin) && !Shown(MenuItems[16], admin) && !Shown(MenuItems[17], admin);
    assert forall k :: 0 <= k < 15 ==> MenuItems[k].path !in SelfServicePaths;
    forall item | item in VisibleItems(admin)
      ensures item.path !in SelfServicePaths
    {
      var k :| 0 <= k < |MenuItems| && MenuItems[k] == item;
    }
  }

  /** An item is highlighted when the current path is exactly its path. */
  function IsActive(item: MenuItem, pathname: string): (b: bool)
    ensures b <==> pathname == item.path
  {
    pathname == item.path
  }

  /** No two menu items share a path. */
  lemma MenuPathsDistinct()
    ensures DistinctBy((item: MenuItem) => item.path, MenuItems)
  {
  }

  /** At most one listed item is highlighted, whatever the path and the user. */
  lemma AtMostOneActive(userRoles: Option<seq<string>>, pathname: string, i: nat, j: nat)
    requires i < |VisibleItems(userRoles)| && j < |VisibleItems(userRoles)|
    requires IsActive(VisibleItems(userRoles)[i], pathname) && IsActive(VisibleItems(userRoles)[j], pathname)
    ensures i == j
  {
    MenuPathsDistinct();
    FilterDistinctBy(item => Shown(item, userRoles), (item: MenuItem) => item.path, MenuItems);
  }
}
