/** `PermissionGate`: shows its children only to a signed-in user who holds
    one of the listed roles and the listed permissions (any one of them, or
    all of them with `requireAll`). An empty list imposes no condition. */
module PermissionGate {

  import opened Wrappers
  import opened Seqs

  /** The signed-in user's role and permission names. */
  datatype User = User(roles: seq<string>, permissions: seq<string>)

  /** The gate's props, with their defaults filled in. */
  datatype Gate = Gate(permissions: seq<string>, roles: seq<string>, requireAll: bool)

  /** `permissions = []`, `roles = []`, `requireAll = false`. */
  const Defaults: Gate := Gate([], [], false)

  function HasRole(user: User, roles: seq<string>): (b: bool)
    ensures b <==> |roles| == 0 || exists i :: 0 <= i < |roles| && roles[i] in user.roles
  {
    |roles| == 0 || Intersects(roles, user.roles)
  }

  function HasPermission(user: User, permissions: seq<string>, requireAll: bool): (b: bool)
    ensures |permissions| == 0 ==> b
    ensures |permissions| > 0 && requireAll ==>
              (b <==> forall i :: 0 <= i < |permissions| ==> permissions[i] in user.permissions)
    ensures |permissions| > 0 && !requireAll ==>
              (b <==> exists i :: 0 <= i < |permissions| && permissions[i] in user.permissions)
  {
    |permissions| == 0 ||
    (if requireAll then AllIncluded(permissions, user.permissions)
     else Intersects(permissions, user.permissions))
  }

  /** Whether the children are rendered. */
  function Renders(user: Option<User>, g: Gate): (b: bool)
    ensures user.None? ==> !b
    ensures user.Some? ==> (b <==> HasRole(user.value, g.roles) && HasPermission(user.value, g.permissions, g.requireAll))
  {
    match user
    case None => false
    case Some(u) => HasRole(u, g.roles) && HasPermission(u, g.permissions, g.requireAll)
  }

  /** A gate with no roles and no permissions admits every signed-in user. */
  lemma DefaultsAdmitEveryUser(user: User, requireAll: bool)
    ensures Renders(Some(user), Defaults)
    ensures Renders(Some(user), Gate([], [], requireAll))
  {
  }

  /** `b` holds every role and every permission that `a` holds. */
  predicate AtLeastAsPrivileged(a: User, b: User) {
    && (forall i :: 0 <= i < |a.roles| ==> a.roles[i] in b.roles)
    && (forall i :: 0 <= i < |a.permissions| ==> a.permissions[i] in b.permissions)
  }

  /** Granting more roles or permissions never hides what was shown. */
  lemma {:induction false} RendersMonotone(a: User, b: User, g: Gate)
    requires AtLeastAsPrivileged(a, b)
    requires Renders(Some(a), g)
    ensures Renders(Some(b), g)
  {
    if |g.roles| > 0 {
      var i :| 0 <= i < |g.roles| && g.roles[i] in a.roles;
      assert g.roles[i] in b.roles;
    }
    if |g.permissions| > 0 && !g.requireAll {
      var i :| 0 <= i < |g.permissions| && g.permissions[i] in a.permissions;
      assert g.permissions[i] in b.permissions;
    }
  }

  /** For a non-empty permission list, passing with `requireAll` implies
      passing without it. */
  lemma {:induction false} RequireAllIsStricter(user: User, g: Gate)
    requires |g.permissions| > 0
    requires Renders(Some(user), g.(requireAll := true))
    ensures Renders(Some(user), g.(requireAll := false))
  {
    assert g.permissions[0] in user.permissions;
  }
}
