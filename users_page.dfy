/** The role changes the super-admin users page (app/super-admin/users/page.tsx)
    offers per row. The change itself is `UserStore.UserStore.UpdateRole`; the
    page's guard is `ClientGuards.RegistryGuard`. */
module UsersPage {
  import opened Common
  import opened UserStore

  /** The role changes offered for a row with role `r`. A "super_admin" row offers
      none and is shown as protected; a row with any other role offers none either. */
  function OfferedTargets(r: string): seq<string> {
    if r == UserRole then [AdminRole]
    else if r == AdminRole then [UserRole, SuperAdminRole]
    else []
  }

  predicate IsProtected(r: string) {
    r == SuperAdminRole
  }

  /** The page state the listener writes: the listed users, by uid, and `loading`. */
  datatype UsersState = UsersState(users: set<string>, loading: bool)

  /** The users listener, registered only while the role is super_admin: each
      snapshot replaces the list and ends loading. The query orders by `createdAt`,
      so it returns only the documents that have that field. For any other role no
      listener runs and nothing changes. */
  function OnUsersSnapshot(st: UsersState, role: string, t: Table): (next: UsersState)
    ensures !IsSuperAdmin(role) ==> next == st
    ensures IsSuperAdmin(role) ==> !next.loading
    ensures IsSuperAdmin(role) ==> forall uid :: uid in next.users <==> uid in t && t[uid].createdAt.Some?
  {
    if !IsSuperAdmin(role) then st else UsersState(set uid | uid in t && t[uid].createdAt.Some?, false)
  }

  /** Exactly user→admin, admin→user and admin→super_admin are offered. */
  lemma OfferedTransitions(r: string, target: string)
    ensures target in OfferedTargets(r) <==>
      (r == UserRole && target == AdminRole) ||
      (r == AdminRole && target == UserRole) ||
      (r == AdminRole && target == SuperAdminRole)
    ensures IsProtected(r) ==> OfferedTargets(r) == []
  {
  }

  /** A role change keeps every user listed: the next snapshot lists the same uids. */
  lemma RoleChangeKeepsList(st: UsersState, t: Table, uid: string, target: string)
    requires uid in t
    ensures OnUsersSnapshot(st, SuperAdminRole, WithRole(t, uid, target)).users ==
      OnUsersSnapshot(st, SuperAdminRole, t).users
  {
    RoleChangeFrame(t, uid, target);
  }

  /** Through the offered changes no super_admin ever loses that role. */
  lemma OfferedChangesKeepSuperAdmins(t: Table, uid: string, target: string, u: string)
    requires uid in t && target in OfferedTargets(t[uid].role)
    requires u in t && t[u].role == SuperAdminRole
    ensures WithRole(t, uid, target)[u].role == SuperAdminRole
  {
  }
}
