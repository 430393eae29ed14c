/** The super-admin dashboard (app/super-admin/page.tsx): `fetchStats`, which
    reads four counts and sets them together, and the "Requests" card. The page's
    guard is `ClientGuards.SuperAdminDashboardGuard`.

    The four counts are the answers of `getCountFromServer`; `UserCounts` states
    what they count in a table of user records. */
module SuperAdminDashboard {
  import opened Common
  import opened UserStore

  datatype SystemStats = SystemStats(users: nat, admins: nat, pendingRequests: nat, newsletters: nat)

  /** The page state `fetchStats` writes: the statistics and the `fetching` flag. */
  datatype OverviewState = OverviewState(stats: SystemStats, fetching: bool)

  const ActionRequired: string := "Action Required"
  const AllClear: string := "All Clear"

  /** `fetchStats`: nothing unless the role is super_admin; otherwise the four
      counts (`None` when one of the four reads threw) are set together, and
      fetching ends either way. */
  function FetchStats(st: OverviewState, role: string, counts: Option<SystemStats>): (next: OverviewState)
    ensures !IsSuperAdmin(role) ==> next == st
    ensures IsSuperAdmin(role) ==> !next.fetching
    ensures IsSuperAdmin(role) ==> next.stats == counts.GetOr(st.stats)
  {
    if !IsSuperAdmin(role) then st
    else if counts.Some? then OverviewState(counts.value, false)
    else st.(fetching := false)
  }

  /** The line under the pending-requests count. */
  function RequestsLabel(pending: nat): (text: string)
    ensures text == ActionRequired <==> pending > 0
    ensures text == AllClear <==> pending == 0
  {
    if pending > 0 then ActionRequired else AllClear
  }

  /** The pulsing dot on the "Requests" card. */
  predicate ShowsAlertDot(pending: nat) {
    pending > 0
  }

  /** What the four count queries count in the users table (the newsletters count
      is another collection's size): every user, the "admin" role, and every set
      `adminRequest` whatever the role. */
  function UserCounts(t: Table, newsletters: nat): SystemStats {
    SystemStats(
      |t.Keys|,
      |set uid | uid in t && t[uid].role == AdminRole|,
      |set uid | uid in t && t[uid].adminRequest|,
      newsletters)
  }

  // ---------------------------------------------------------------------------

  /** The dot and the label agree. */
  lemma DotMatchesLabel(pending: nat)
    ensures ShowsAlertDot(pending) <==> RequestsLabel(pending) == ActionRequired
  {
  }

  /** The dashboard's pending count includes every request the roles page lists,
      and more when some non-"user" still has its flag set. */
  lemma PendingCountCoversList(t: Table, newsletters: nat)
    ensures |Pending(t)| <= UserCounts(t, newsletters).pendingRequests
    ensures UserCounts(t, newsletters).admins <= UserCounts(t, newsletters).users
  {
    var flagged := set uid | uid in t && t[uid].adminRequest;
    var admins := set uid | uid in t && t[uid].role == AdminRole;
    assert Pending(t) <= flagged;
    assert admins <= t.Keys;
    SubsetCard(Pending(t), flagged);
    SubsetCard(admins, t.Keys);
  }

  lemma {:induction false} SubsetCard<T>(a: set<T>, b: set<T>)
    requires a <= b
    ensures |a| <= |b|
    decreases |b|
  {
    if a != {} {
      var x :| x in a;
      SubsetCard(a - {x}, b - {x});
    }
  }
}
