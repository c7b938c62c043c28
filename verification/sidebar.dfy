/** The navigation sidebar (src/components/layout/Sidebar.tsx). */
module Sidebar {
  import opened Wrappers
  import opened Rows
  import opened Query

  datatype NavItem = NavItem(text: string, path: string)

  const CitizenNav := [
    NavItem("Dashboard", "/dashboard"),
    NavItem("Certificates", "/certificates"),
    NavItem("Property Tax", "/property-tax"),
    NavItem("Grievances", "/grievances"),
    NavItem("Announcements", "/announcements")]

  const AdminNav := [
    NavItem("Dashboard", "/admin"),
    NavItem("Users", "/admin/users"),
    NavItem("Certificates", "/admin/certificates"),
    NavItem("Property Tax", "/admin/property-tax"),
    NavItem("Grievances", "/admin/grievances"),
    NavItem("Announcements", "/admin/announcements")]

  predicate IsAdminPath(path: string) { "/admin" <= path }

  /** No two entries share a path, which the list uses as its keys. */
  predicate PathsUnique(items: seq<NavItem>) {
    forall i, j :: 0 <= i < j < |items| ==> items[i].path != items[j].path
  }

  lemma CitizenNavShape()
    ensures |CitizenNav| == 5 && PathsUnique(CitizenNav)
    ensures forall it :: it in CitizenNav ==> !IsAdminPath(it.path)
  {
    // each citizen path differs from "/admin" at its third character,
    // and from every other citizen path at its second
    forall it | it in CitizenNav ensures !IsAdminPath(it.path) {
      assert |it.path| > 2 && it.path[2] != "/admin"[2];
    }
    forall i, j | 0 <= i < j < 5 ensures CitizenNav[i].path != CitizenNav[j].path {
      assert CitizenNav[i].path[1] != CitizenNav[j].path[1];
    }
  }

  lemma AdminNavShape()
    ensures |AdminNav| == 6 && PathsUnique(AdminNav)
    ensures forall it :: it in AdminNav ==> IsAdminPath(it.path)
  {
    // after "/admin", the paths differ in their length or in their eighth character
    forall i, j | 0 <= i < j < 6 ensures AdminNav[i].path != AdminNav[j].path {
      assert |AdminNav[i].path| != |AdminNav[j].path| || AdminNav[i].path[7] != AdminNav[j].path[7];
    }
  }

  /** The list the sidebar renders. */
  function NavItems(isAdmin: bool): (items: seq<NavItem>)
    ensures isAdmin ==> |items| == 6 && forall it :: it in items ==> IsAdminPath(it.path)
    ensures !isAdmin ==> |items| == 5 && forall it :: it in items ==> !IsAdminPath(it.path)
    ensures PathsUnique(items)
  {
    CitizenNavShape();
    AdminNavShape();
    if isAdmin then AdminNav else CitizenNav
  }

  /** The user's admin role rows: what the query filters `user_roles` down to. */
  function AdminRows(roles: seq<UserRole>, user: UserId): (r: seq<UserRole>)
    ensures forall x :: x in r <==> x in roles && x.user_id == user && x.role == "admin"
  {
    Filter(roles, (x: UserRole) => x.user_id == user && x.role == "admin")
  }

  /**
   * `!!data` after `.maybeSingle()`: true exactly when the read succeeds and
   * finds one admin row for the user (none gives null data, several an error).
   */
  function AdminFlag(roles: seq<UserRole>, user: UserId, readFails: bool): (isAdmin: bool)
    ensures isAdmin <==> !readFails && |AdminRows(roles, user)| == 1
    ensures isAdmin ==> exists x :: x in roles && x.user_id == user && x.role == "admin"
  {
    var rows := AdminRows(roles, user);
    if !readFails && |rows| == 1 then
      assert rows[0] in rows;
      true
    else false
  }

  /** The (user, role) pairs of the table are distinct, as its unique key makes them. */
  ghost predicate PairsUnique(roles: seq<UserRole>) {
    forall i, j :: 0 <= i < j < |roles| ==> (roles[i].user_id, roles[i].role) != (roles[j].user_id, roles[j].role)
  }

  /** The first role row is an admin row of the user, or not, and the rest follow. */
  lemma AdminRowsCons(roles: seq<UserRole>, user: UserId)
    requires roles != []
    ensures AdminRows(roles, user)
         == (if roles[0].user_id == user && roles[0].role == "admin" then [roles[0]] else []) + AdminRows(roles[1..], user)
  {
  }

  /** A user without admin rows gets none from the filter. */
  lemma {:induction false} AdminRowsNone(roles: seq<UserRole>, user: UserId)
    requires forall x :: x in roles ==> !(x.user_id == user && x.role == "admin")
    ensures AdminRows(roles, user) == []
  {
    if roles != [] {
      AdminRowsCons(roles, user);
      AdminRowsNone(roles[1..], user);
    }
  }

  /** Under that key, a user has at most one admin row. */
  lemma {:induction false} AdminRowsAtMostOne(roles: seq<UserRole>, user: UserId)
    requires PairsUnique(roles)
    ensures |AdminRows(roles, user)| <= 1
  {
    if roles != [] {
      assert PairsUnique(roles[1..]) by {
        forall i, j | 0 <= i < j < |roles[1..]|
          ensures (roles[1..][i].user_id, roles[1..][i].role) != (roles[1..][j].user_id, roles[1..][j].role)
        {
          assert roles[1..][i] == roles[i + 1] && roles[1..][j] == roles[j + 1];
        }
      }
      AdminRowsAtMostOne(roles[1..], user);
      AdminRowsCons(roles, user);
      if roles[0].user_id == user && roles[0].role == "admin" {
        forall x | x in roles[1..] ensures !(x.user_id == user && x.role == "admin") {
          var j :| 0 <= j < |roles[1..]| && roles[1..][j] == x;
          assert roles[j + 1] == x;
        }
        AdminRowsNone(roles[1..], user);
      }
    }
  }

  /** Under that key, a successful read sees the admin role exactly when a matching row exists. */
  lemma AdminFlagWithUniqueRoles(roles: seq<UserRole>, user: UserId)
    requires PairsUnique(roles)
    ensures AdminFlag(roles, user, false) <==> exists x :: x in roles && x.user_id == user && x.role == "admin"
  {
    AdminRowsAtMostOne(roles, user);
    if x :| x in roles && x.user_id == user && x.role == "admin" {
      assert x in AdminRows(roles, user);
    }
  }

  class Sidebar {
    var isAdmin: bool

    constructor ()
      ensures !isAdmin
    {
      isAdmin := false;
    }

    /** `checkAdminRole`: with no signed-in user the flag is left as it was. */
    method CheckAdminRole(user: Option<UserId>, roles: seq<UserRole>, readFails: bool)
      modifies this
      ensures user.None? ==> isAdmin == old(isAdmin)
      ensures user.Some? ==> isAdmin == AdminFlag(roles, user.value, readFails)
    {
      if user.Some? {
        isAdmin := AdminFlag(roles, user.value, readFails);
      }
    }

    function Items(): (items: seq<NavItem>)
      reads this
      ensures items == NavItems(isAdmin)
    {
      NavItems(isAdmin)
    }
  }
}
