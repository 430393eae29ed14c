/** The profile page (app/profile/page.tsx): the request status it derives from
    the user's own document, and which action it offers. Its sign-in redirect is
    `ClientGuards.ProfileGuard`.
    The write behind "Request Access" is `UserStore.UserStore.RequestAdmin`. */
module ProfilePage {
  import opened Common
  import opened UserStore

  /** `requestStatus`; `Rejected` is a declared state that nothing ever sets. */
  datatype RequestStatus = NoRequest | PendingRequest | Rejected

  /** What the "Account Status" card shows. */
  datatype StatusAction = RequestButton | Reviewing | PrivilegesNotice

  /** The snapshot listener on `users/<uid>`: an existing document sets the status
      from `adminRequest`; a missing one leaves it as it was. */
  function OnUserSnapshot(prev: RequestStatus, doc: Option<UserRec>): RequestStatus {
    if doc.Some? then (if doc.value.adminRequest then PendingRequest else NoRequest)
    else prev
  }

  /** The status card: the request button or "Reviewing" for role "user",
      the privileges notice for every other role. */
  function Action(role: string, status: RequestStatus): StatusAction {
    if role == UserRole then (if status == PendingRequest then Reviewing else RequestButton)
    else PrivilegesNotice
  }

  // ---------------------------------------------------------------------------

  /** The status is pending exactly when the document's flag is set; "rejected"
      is never reached from a state that was not already "rejected". */
  lemma StatusFromDocument(prev: RequestStatus, doc: UserRec)
    ensures OnUserSnapshot(prev, Some(doc)) == PendingRequest <==> doc.adminRequest
    ensures OnUserSnapshot(prev, Some(doc)) != Rejected
  {
  }

  lemma NeverRejected(prev: RequestStatus, doc: Option<UserRec>)
    requires prev != Rejected
    ensures OnUserSnapshot(prev, doc) != Rejected
  {
  }

  /** "Request Access" is offered only to role "user" without a pending request. */
  lemma RequestOfferedOnlyToUsers(role: string, status: RequestStatus)
    ensures Action(role, status) == RequestButton <==> role == UserRole && status != PendingRequest
    ensures Action(role, status) == PrivilegesNotice <==> role != UserRole
  {
  }

  /** After a "user" requests access, the next snapshot shows "Reviewing" and the
      roles page lists that user. */
  lemma RequestShowsReviewing(t: Table, uid: string, prev: RequestStatus)
    requires uid in t && t[uid].role == UserRole
    ensures var t' := WithAdminRequest(t, uid);
      && Action(t'[uid].role, OnUserSnapshot(prev, Some(t'[uid]))) == Reviewing
      && uid in Pending(t')
  {
  }
}
