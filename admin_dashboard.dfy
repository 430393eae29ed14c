/** The admin dashboard (app/admin/page.tsx): the greeting chosen by the hour, and
    the two listeners that fill its statistics. The newsletters listener tallies
    the statuses of the snapshot and keeps its first four documents as recent
    activity; the subscriptions listener sets the subscriber count. Neither listener
    is registered unless `Subscribed` holds, so a snapshot then changes nothing.
    The page's guard is `ClientGuards.AdminDashboardGuard`. */
module AdminDashboard {
  import opened Common

  /** The fields of a newsletter document the listener copies into an activity row. */
  datatype ActivityItem = ActivityItem(id: string, title: string, status: string, updatedAt: int, slug: string)

  datatype DashboardStats = DashboardStats(drafts: nat, published: nat, scheduled: nat, subscribers: nat)

  datatype DashboardState = DashboardState(stats: DashboardStats, recent: seq<ActivityItem>, isLoadingData: bool)

  const MaxRecent: nat := 4

  const Morning: string := "Good morning"
  const Afternoon: string := "Good afternoon"
  const Evening: string := "Good evening"

  /** The greeting for an hour of the local clock (`getHours`, 0 to 23). */
  function Greeting(hour: nat): (g: string)
    ensures g == Morning <==> hour < 12
    ensures g == Afternoon <==> 12 <= hour < 18
    ensures g == Evening <==> 18 <= hour
  {
    if hour < 12 then Morning
    else if hour < 18 then Afternoon
    else Evening
  }

  /** The number of documents of `docs` whose status is exactly `status`. */
  function CountStatus(docs: seq<ActivityItem>, status: string): nat {
    if docs == [] then 0
    else CountStatus(docs[..|docs| - 1], status) + (if docs[|docs| - 1].status == status then 1 else 0)
  }

  predicate IsTallied(status: string) {
    status == "draft" || status == "published" || status == "scheduled"
  }

  function Min(a: nat, b: nat): nat { if a < b then a else b }

  /** The data effect's early return: the listeners start only for a signed-in
      admin or super_admin. */
  predicate Subscribed(s: Session) {
    s.user.Some? && IsPrivileged(s.role)
  }

  /** The newsletters listener: one pass over the snapshot counting drafts,
      published and scheduled documents and collecting the first four documents;
      the counts then replace those of the previous statistics, whose subscriber
      count is kept. Without a subscription for the session `s` nothing changes. */
  method OnNewsletterSnapshot(st: DashboardState, s: Session, docs: seq<ActivityItem>) returns (next: DashboardState)
    ensures !Subscribed(s) ==> next == st
    ensures Subscribed(s) ==> next.stats == st.stats.(drafts := CountStatus(docs, "draft"),
                                    published := CountStatus(docs, "published"),
                                    scheduled := CountStatus(docs, "scheduled"))
    ensures Subscribed(s) ==> next.recent == docs[..Min(MaxRecent, |docs|)]
    ensures next.isLoadingData == st.isLoadingData
  {
    if !Subscribed(s) {
      return st;
    }
    var d, p, sc := 0, 0, 0;
    var activity: seq<ActivityItem> := [];
    var i := 0;
    while i < |docs|
      invariant 0 <= i <= |docs|
      invariant d == CountStatus(docs[..i], "draft")
      invariant p == CountStatus(docs[..i], "published")
      invariant sc == CountStatus(docs[..i], "scheduled")
      invariant activity == docs[..Min(MaxRecent, i)]
    {
      assert docs[..i + 1][..i] == docs[..i];
      var status := docs[i].status;
      if status == "draft" {
        d := d + 1;
      } else if status == "published" {
        p := p + 1;
      } else if status == "scheduled" {
        sc := sc + 1;
      }
      if |activity| < MaxRecent {
        activity := activity + [docs[i]];
      }
      i := i + 1;
    }
    assert docs[..|docs|] == docs;
    next := st.(stats := st.stats.(drafts := d, published := p, scheduled := sc), recent := activity);
  }

  /** The subscriptions listener: a snapshot of `size` documents sets the subscriber
      count and nothing else; an error (`None`) leaves the statistics as they were.
      Either way loading ends. Without a subscription for `s` nothing changes, and
      loading goes on. */
  function OnSubscriptionSnapshot(st: DashboardState, s: Session, size: Option<nat>): (next: DashboardState)
    ensures !Subscribed(s) ==> next == st
    ensures next.recent == st.recent
    ensures next.stats.drafts == st.stats.drafts && next.stats.published == st.stats.published
    ensures next.stats.scheduled == st.stats.scheduled
    ensures Subscribed(s) ==> !next.isLoadingData
    ensures Subscribed(s) ==> next.stats.subscribers == if size.Some? then size.value else st.stats.subscribers
  {
    if !Subscribed(s) then st
    else match size
    case Some(n) => st.(stats := st.stats.(subscribers := n), isLoadingData := false)
    case None => st.(isLoadingData := false)
  }

  // ---------------------------------------------------------------------------

  /** The three counts never exceed the size of the snapshot, and they add up to it
      exactly when every document has one of the three tallied statuses. */
  lemma {:induction false} TallyBound(docs: seq<ActivityItem>)
    ensures CountStatus(docs, "draft") + CountStatus(docs, "published") + CountStatus(docs, "scheduled") <= |docs|
    ensures CountStatus(docs, "draft") + CountStatus(docs, "published") + CountStatus(docs, "scheduled") == |docs|
      <==> forall i :: 0 <= i < |docs| ==> IsTallied(docs[i].status)
  {
    if docs != [] {
      var front := docs[..|docs| - 1];
      TallyBound(front);
      if forall i :: 0 <= i < |docs| ==> IsTallied(docs[i].status) {
        assert forall i :: 0 <= i < |front| ==> IsTallied(front[i].status) by {
          forall i | 0 <= i < |front| ensures IsTallied(front[i].status) {
            assert front[i] == docs[i];
          }
        }
      } else {
        var j :| 0 <= j < |docs| && !IsTallied(docs[j].status);
        if j < |docs| - 1 {
          assert front[j] == docs[j];
        }
      }
    }
  }

  /** A document with any other status is counted nowhere. */
  lemma {:induction false} UntalliedCountsNowhere(docs: seq<ActivityItem>, doc: ActivityItem)
    requires !IsTallied(doc.status)
    ensures CountStatus(docs + [doc], "draft") == CountStatus(docs, "draft")
    ensures CountStatus(docs + [doc], "published") == CountStatus(docs, "published")
    ensures CountStatus(docs + [doc], "scheduled") == CountStatus(docs, "scheduled")
  {
    assert (docs + [doc])[..|docs|] == docs;
  }
}
