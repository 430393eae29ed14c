/** The `users` and `auditLogs` collections as three pages change them:
    requesting access (app/profile/page.tsx), approving or rejecting a request
    (app/super-admin/roles/page.tsx) and changing a role
    (app/super-admin/users/page.tsx).

    Each `updateDoc` is a pure transition on the table of user records; each handler
    is a method of `UserStore` that applies its transition when the write succeeds
    and then appends to the audit log when that write succeeds too. The outcome of
    the browser's `confirm` dialog and of each database write are parameters. */
module UserStore {
  import opened Common

  /** A document of the `users` collection, keyed by uid; `createdAt` may be absent. */
  datatype UserRec = UserRec(email: string, role: string, adminRequest: bool, createdAt: Option<int>)

  type Table = map<string, UserRec>

  /** A document of the `auditLogs` collection; the server timestamp is not modelled here. */
  datatype AuditEntry = AuditEntry(
    action: string,
    details: string,
    performedBy: Option<string>,
    performedByUid: Option<string>)

  /** How a handler ended: the confirmation was declined, the user update threw
      (and an alert was shown), or the user update was written. */
  datatype HandlerOutcome = Declined | UpdateFailed | Updated

  const ApprovedAction: string := "ADMIN_APPROVED"
  const RejectedAction: string := "ADMIN_REJECTED"
  const RoleChangeAction: string := "ROLE_CHANGE"

  // ---------------------------------------------------------------------------
  // The effect of each `updateDoc` on the table. Updating a document that does not
  // exist throws, so each of them is only applied to a uid in the table.

  /** `updateDoc(users/uid, { adminRequest: true })`. */
  function WithAdminRequest(t: Table, uid: string): Table
    requires uid in t
  {
    t[uid := t[uid].(adminRequest := true)]
  }

  /** `updateDoc(users/uid, { role, adminRequest: false })`. */
  function WithRole(t: Table, uid: string, role: string): Table
    requires uid in t
  {
    t[uid := t[uid].(role := role, adminRequest := false)]
  }

  /** `updateDoc(users/uid, { adminRequest: false })`. */
  function WithoutAdminRequest(t: Table, uid: string): Table
    requires uid in t
  {
    t[uid := t[uid].(adminRequest := false)]
  }

  /** The uids the roles page lists: `adminRequest == true` and `role == "user"`. */
  function Pending(t: Table): set<string> {
    set uid | uid in t && t[uid].adminRequest && t[uid].role == UserRole
  }

  /** The audit entry `logAudit` writes for the signed-in account. */
  function Entry(action: string, details: string, actor: Option<Account>): AuditEntry {
    AuditEntry(action, details,
      if actor.Some? then actor.value.email else None,
      if actor.Some? then Some(actor.value.uid) else None)
  }

  function ApprovedDetails(email: string, uid: string): string {
    "Approved admin request for " + email + " (" + uid + ")"
  }

  function RejectedDetails(email: string, uid: string): string {
    "Rejected admin request for " + email + " (" + uid + ")"
  }

  function RoleChangeDetails(email: string, uid: string, target: string): string {
    "Changed role of " + email + " (" + uid + ") to " + target
  }

  class UserStore {
    var users: Table
    var auditLog: seq<AuditEntry>

    constructor (initial: Table)
      ensures users == initial && auditLog == []
    {
      users := initial;
      auditLog := [];
    }

    /** `handleRequestAdmin` of the profile page: nothing without a signed-in
        account; otherwise an `adminRequest: true` write whose failure is only logged. */
    method RequestAdmin(current: Option<Account>, writeOk: bool)
      modifies this
      ensures users ==
        if current.Some? && current.value.uid in old(users) && writeOk
        then WithAdminRequest(old(users), current.value.uid)
        else old(users)
      ensures auditLog == old(auditLog)
    {
      if current.None? {
        return;
      }
      var uid := current.value.uid;
      if uid in users && writeOk {
        users := WithAdminRequest(users, uid);
      }
    }

    /** The write shared by the three handlers: apply the user update, then, if it
        was written, append `entry` unless that second write fails. */
    method UpdateThenLog(updated: Table, entry: AuditEntry, writeOk: bool, logOk: bool)
      returns (outcome: HandlerOutcome)
      modifies this
      ensures outcome == (if writeOk then Updated else UpdateFailed)
      ensures users == (if writeOk then updated else old(users))
      ensures auditLog == (if writeOk && logOk then old(auditLog) + [entry] else old(auditLog))
    {
      if !writeOk {
        return UpdateFailed;
      }
      users := updated;
      if logOk {
        auditLog := auditLog + [entry];
      }
      outcome := Updated;
    }

    /** `handleApprove` of the roles page. */
    method Approve(uid: string, email: string, actor: Option<Account>, confirmed: bool, writeOk: bool, logOk: bool)
      returns (outcome: HandlerOutcome)
      modifies this
      ensures outcome == (if !confirmed then Declined else if uid in old(users) && writeOk then Updated else UpdateFailed)
      ensures users == (if outcome == Updated then WithRole(old(users), uid, AdminRole) else old(users))
      ensures auditLog ==
        if outcome == Updated && logOk
        then old(auditLog) + [Entry(ApprovedAction, ApprovedDetails(email, uid), actor)]
        else old(auditLog)
    {
      if !confirmed {
        return Declined;
      }
      if uid !in users {
        return UpdateFailed;
      }
      outcome := UpdateThenLog(WithRole(users, uid, AdminRole),
        Entry(ApprovedAction, ApprovedDetails(email, uid), actor), writeOk, logOk);
    }

    /** `handleReject` of the roles page. */
    method Reject(uid: string, email: string, actor: Option<Account>, confirmed: bool, writeOk: bool, logOk: bool)
      returns (outcome: HandlerOutcome)
      modifies this
      ensures outcome == (if !confirmed then Declined else if uid in old(users) && writeOk then Updated else UpdateFailed)
      ensures users == (if outcome == Updated then WithoutAdminRequest(old(users), uid) else old(users))
      ensures auditLog ==
        if outcome == Updated && logOk
        then old(auditLog) + [Entry(RejectedAction, RejectedDetails(email, uid), actor)]
        else old(auditLog)
    {
      if !confirmed {
        return Declined;
      }
      if uid !in users {
        return UpdateFailed;
      }
      outcome := UpdateThenLog(WithoutAdminRequest(users, uid),
        Entry(RejectedAction, RejectedDetails(email, uid), actor), writeOk, logOk);
    }

    /** `handleRoleUpdate` of the users page. */
    method UpdateRole(uid: string, target: string, email: string, actor: Option<Account>,
                      confirmed: bool, writeOk: bool, logOk: bool)
      returns (outcome: HandlerOutcome)
      modifies this
      ensures outcome == (if !confirmed then Declined else if uid in old(users) && writeOk then Updated else UpdateFailed)
      ensures users == (if outcome == Updated then WithRole(old(users), uid, target) else old(users))
      ensures auditLog ==
        if outcome == Updated && logOk
        then old(auditLog) + [Entry(RoleChangeAction, RoleChangeDetails(email, uid, target), actor)]
        else old(auditLog)
    {
      if !confirmed {
        return Declined;
      }
      if uid !in users {
        return UpdateFailed;
      }
      outcome := UpdateThenLog(WithRole(users, uid, target),
        Entry(RoleChangeAction, RoleChangeDetails(email, uid, target), actor), writeOk, logOk);
    }
  }

  // ---------------------------------------------------------------------------
  // Properties of the transitions

  /** Requesting access sets the flag of that user and changes nothing else. */
  lemma RequestTouchesOnlyFlag(t: Table, uid: string)
    requires uid in t
    ensures var t' := WithAdminRequest(t, uid);
      && t'.Keys == t.Keys
      && t'[uid].adminRequest
      && t'[uid].role == t[uid].role && t'[uid].email == t[uid].email && t'[uid].createdAt == t[uid].createdAt
      && forall u :: u in t && u != uid ==> t'[u] == t[u]
  {
  }

  /** Requesting twice is requesting once. */
  lemma RequestIdempotent(t: Table, uid: string)
    requires uid in t
    ensures WithAdminRequest(WithAdminRequest(t, uid), uid) == WithAdminRequest(t, uid)
  {
  }

  /** A "user" who requests access is listed on the roles page, and no one else is added. */
  lemma RequestMakesPending(t: Table, uid: string)
    requires uid in t
    ensures Pending(WithAdminRequest(t, uid)) ==
      if t[uid].role == UserRole then Pending(t) + {uid} else Pending(t)
  {
  }

  /** Approving makes the user an admin and removes exactly that user from the list. */
  lemma ApproveClearsRequest(t: Table, uid: string)
    requires uid in t
    ensures var t' := WithRole(t, uid, AdminRole);
      t'[uid].role == AdminRole && !t'[uid].adminRequest && Pending(t') == Pending(t) - {uid}
  {
  }

  /** Rejecting keeps the role and removes exactly that user from the list. */
  lemma RejectClearsRequest(t: Table, uid: string)
    requires uid in t
    ensures var t' := WithoutAdminRequest(t, uid);
      t'[uid].role == t[uid].role && !t'[uid].adminRequest && Pending(t') == Pending(t) - {uid}
  {
  }

  /** A role change sets the role and clears the request of that one user; no other
      field and no other user changes. */
  lemma RoleChangeFrame(t: Table, uid: string, target: string)
    requires uid in t
    ensures var t' := WithRole(t, uid, target);
      && t'.Keys == t.Keys
      && t'[uid] == UserRec(t[uid].email, target, false, t[uid].createdAt)
      && forall u :: u in t && u != uid ==> t'[u] == t[u]
  {
  }
}
