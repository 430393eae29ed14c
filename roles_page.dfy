/** The roles page (app/super-admin/roles/page.tsx): the listener over the pending
    admin requests. Approving and rejecting are `UserStore.UserStore.Approve` and
    `UserStore.UserStore.Reject`; the page's guard is `ClientGuards.RegistryGuard`. */
module RolesPage {
  import opened Common
  import opened UserStore

  /** The page state the listener writes: the listed requests, by uid, and `loading`. */
  datatype RequestsState = RequestsState(requests: set<string>, loading: bool)

  /** The requests listener, registered only while the role is super_admin: each
      snapshot of the users whose `adminRequest` is true and whose role is "user"
      replaces the list and ends loading. For any other role no listener runs and
      nothing changes. */
  function OnRequestsSnapshot(st: RequestsState, role: string, t: Table): (next: RequestsState)
    ensures !IsSuperAdmin(role) ==> next == st
    ensures IsSuperAdmin(role) ==> !next.loading
    ensures IsSuperAdmin(role) ==>
      forall uid :: uid in next.requests <==> uid in t && t[uid].adminRequest && t[uid].role == UserRole
  {
    if !IsSuperAdmin(role) then st else RequestsState(Pending(t), false)
  }

  /** After an approval or a rejection is written, the next snapshot lists the same
      requests less the decided one. */
  lemma DecisionLeavesList(st: RequestsState, t: Table, uid: string, decided: Table)
    requires uid in t
    requires decided == WithRole(t, uid, AdminRole) || decided == WithoutAdminRequest(t, uid)
    ensures OnRequestsSnapshot(st, SuperAdminRole, decided).requests ==
      OnRequestsSnapshot(st, SuperAdminRole, t).requests - {uid}
  {
    ApproveClearsRequest(t, uid);
    RejectClearsRequest(t, uid);
  }

  /** A request made on the profile page by a "user" appears in the next snapshot. */
  lemma RequestAppearsInList(st: RequestsState, t: Table, uid: string)
    requires uid in t && t[uid].role == UserRole
    ensures uid in OnRequestsSnapshot(st, SuperAdminRole, WithAdminRequest(t, uid)).requests
  {
    RequestMakesPending(t, uid);
  }
}
