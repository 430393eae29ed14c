/** The audit-log page (app/super-admin/audit-logs/page.tsx): `fetchLogs` asks for
    the `auditLogs` collection ordered by timestamp, newest first, limited to 50,
    and shows each document with its id. The ordering the server applies is
    modelled as a sort of the whole collection. The page's guard is
    `ClientGuards.AuditLogsGuard`. */
module AuditLogsPage {
  import opened Common
  import opened UserStore

  /** One document of the collection: its id, its fields, and its server timestamp. */
  datatype StoredLog = StoredLog(id: string, entry: AuditEntry, timestamp: int)

  datatype LogsState = LogsState(logs: seq<StoredLog>, loading: bool)

  const Limit: nat := 50

  /** Each document is no newer than the one before it. */
  predicate NewestFirst(s: seq<StoredLog>) {
    forall i :: 0 < i < |s| ==> s[i].timestamp <= s[i - 1].timestamp
  }

  /** Places `x` before the first entry no newer than `x`, so `x` goes ahead of
      entries with the same timestamp. */
  function Insert(x: StoredLog, s: seq<StoredLog>): (r: seq<StoredLog>)
    requires NewestFirst(s)
    ensures NewestFirst(r)
    ensures |r| == |s| + 1
    ensures r[0] == x || (s != [] && r[0] == s[0])
    ensures multiset(r) == multiset(s) + multiset{x}
  {
    if s == [] then [x]
    else if s[0].timestamp <= x.timestamp then [x] + s
    else
      assert s == [s[0]] + s[1..];
      [s[0]] + Insert(x, s[1..])
  }

  /** `orderBy("timestamp", "desc")` over the whole collection. */
  function SortNewestFirst(c: seq<StoredLog>): (r: seq<StoredLog>)
    ensures NewestFirst(r)
    ensures multiset(r) == multiset(c)
  {
    if c == [] then []
    else
      assert c == c[..|c| - 1] + [c[|c| - 1]];
      Insert(c[|c| - 1], SortNewestFirst(c[..|c| - 1]))
  }

  /** What the page shows for a collection: its 50 newest documents, newest first. */
  function ShownLogs(c: seq<StoredLog>): seq<StoredLog> {
    var sorted := SortNewestFirst(c);
    if |sorted| <= Limit then sorted else sorted[..Limit]
  }

  /** `fetchLogs`: nothing unless the role is super_admin; otherwise the shown list
      is replaced by the query's answer, or kept when the query threw (`None`), and
      loading ends either way. */
  function FetchLogs(st: LogsState, role: string, collection: Option<seq<StoredLog>>): (next: LogsState)
    ensures !IsSuperAdmin(role) ==> next == st
    ensures IsSuperAdmin(role) ==> !next.loading
    ensures IsSuperAdmin(role) && collection.None? ==> next.logs == st.logs
    ensures IsSuperAdmin(role) && collection.Some? ==> next.logs == ShownLogs(collection.value)
  {
    if !IsSuperAdmin(role) then st
    else if collection.Some? then LogsState(ShownLogs(collection.value), false)
    else st.(loading := false)
  }

  // ---------------------------------------------------------------------------

  /** In a newest-first list, a later document is never newer than an earlier one. */
  lemma {:induction false} LaterIsOlder(s: seq<StoredLog>, i: nat, j: nat)
    requires NewestFirst(s) && i <= j < |s|
    ensures s[j].timestamp <= s[i].timestamp
    decreases j - i
  {
    if i < j {
      LaterIsOlder(s, i, j - 1);
    }
  }

  /** A prefix of a newest-first list is newest first and is drawn from the list. */
  lemma PrefixIsNewestFirst(sorted: seq<StoredLog>, k: nat)
    requires NewestFirst(sorted) && k <= |sorted|
    ensures NewestFirst(sorted[..k])
    ensures multiset(sorted) == multiset(sorted[..k]) + multiset(sorted[k..])
  {
    assert sorted == sorted[..k] + sorted[k..];
  }

  /** No document after a prefix of a newest-first list is newer than any document
      in the prefix. */
  lemma DroppedAreOlder(sorted: seq<StoredLog>, k: nat)
    requires NewestFirst(sorted) && k <= |sorted|
    ensures forall x: StoredLog, y: StoredLog :: x in sorted[k..] && y in sorted[..k] ==>
      x.timestamp <= y.timestamp
  {
    forall x: StoredLog, y: StoredLog | x in sorted[k..] && y in sorted[..k]
      ensures x.timestamp <= y.timestamp
    {
      var j :| 0 <= j < |sorted| - k && sorted[k..][j] == x;
      var i :| 0 <= i < k && sorted[..k][i] == y;
      LaterIsOlder(sorted, i, k + j);
    }
  }

  /** At most 50 documents, newest first, each one from the collection; all of them
      when there are no more than 50; and every document left out is no newer than
      any shown one. */
  lemma ShownLogsAreNewest(c: seq<StoredLog>)
    ensures |ShownLogs(c)| == if |c| <= Limit then |c| else Limit
    ensures NewestFirst(ShownLogs(c))
    ensures multiset(ShownLogs(c)) <= multiset(c)
    ensures |c| <= Limit ==> multiset(ShownLogs(c)) == multiset(c)
    ensures forall x: StoredLog, y: StoredLog :: x in multiset(c) - multiset(ShownLogs(c)) && y in ShownLogs(c) ==>
      x.timestamp <= y.timestamp
  {
    var sorted := SortNewestFirst(c);
    assert |sorted| == |c| by {
      assert |multiset(sorted)| == |multiset(c)|;
    }
    if |sorted| > Limit {
      PrefixIsNewestFirst(sorted, Limit);
      DroppedAreOlder(sorted, Limit);
      assert multiset(c) - multiset(sorted[..Limit]) == multiset(sorted[Limit..]);
    }
  }

  /** A failed fetch keeps the empty list the page starts with. */
  lemma FailedFetchShowsNothing()
    ensures FetchLogs(LogsState([], true), SuperAdminRole, None) == LogsState([], false)
  {
  }
}
