/** The content library (app/admin/newsletters/page.tsx): the newsletters listener
    fills a list, and `filteredNewsletters` keeps the items whose lower-cased title
    contains the lower-cased search term and whose status matches the selected
    filter. The page renders only for `Common.IsPrivileged`. */
module NewsletterList {
  import opened Common

  /** The fields of a newsletter document the list reads. */
  datatype Newsletter = Newsletter(id: string, title: string, slug: string, status: string)

  /** The filter value that lets every status through. */
  const All: string := "all"

  /** The two tests of the filter callback. */
  predicate MatchesSearch(n: Newsletter, search: string) {
    Contains(Lower(n.title), Lower(search))
  }

  predicate MatchesStatus(n: Newsletter, filter: string) {
    filter == All || n.status == filter
  }

  /** Both tests of the filter callback pass. */
  predicate Shown(n: Newsletter, search: string, filter: string) {
    MatchesSearch(n, search) && MatchesStatus(n, filter)
  }

  /** `filteredNewsletters`. */
  function Filtered(items: seq<Newsletter>, search: string, filter: string): (r: seq<Newsletter>)
    ensures |r| <= |items|
  {
    if items == [] then []
    else
      var rest := Filtered(items[1..], search, filter);
      if Shown(items[0], search, filter) then [items[0]] + rest else rest
  }

  /** An item is shown exactly when it is in the list and passes both tests. */
  lemma {:induction false} FilteredMembers(items: seq<Newsletter>, search: string, filter: string)
    ensures forall n :: n in Filtered(items, search, filter) <==> n in items && Shown(n, search, filter)
  {
    if items != [] {
      FilteredMembers(items[1..], search, filter);
      assert items == [items[0]] + items[1..];
    }
  }

  /** The "No newsletters found." block. */
  predicate ShowsEmptyState(items: seq<Newsletter>, search: string, filter: string, loading: bool) {
    |Filtered(items, search, filter)| == 0 && !loading
  }

  /** `a` is `b` with some items removed, the rest in their order. */
  predicate SubsequenceOf<T(==)>(a: seq<T>, b: seq<T>)
    decreases |b|
  {
    if a == [] then true
    else if b == [] then false
    else (a[0] == b[0] && SubsequenceOf(a[1..], b[1..])) || SubsequenceOf(a, b[1..])
  }

  // ---------------------------------------------------------------------------

  /** The result keeps the fetched order: it is a subsequence of the list. */
  lemma {:induction false} FilteredIsSubsequence(items: seq<Newsletter>, search: string, filter: string)
    ensures SubsequenceOf(Filtered(items, search, filter), items)
  {
    if items != [] {
      FilteredIsSubsequence(items[1..], search, filter);
      var rest := Filtered(items[1..], search, filter);
      if !Shown(items[0], search, filter) && rest != [] {
        assert SubsequenceOf(rest, items);
      }
    }
  }

  lemma {:induction false} EmptyTermMatches(s: string)
    ensures Contains(s, "")
  {
    assert "" <= s[0..];
  }

  /** An empty search with the "all" filter shows the whole list. */
  lemma {:induction false} EmptySearchShowsAll(items: seq<Newsletter>)
    ensures Filtered(items, "", All) == items
  {
    if items != [] {
      EmptyTermMatches(Lower(items[0].title));
      EmptySearchShowsAll(items[1..]);
    }
  }

  /** The search ignores case: a term and its lower-cased form give the same
      result, so do any two terms that lower-case alike. */
  lemma {:induction false} SearchIgnoresCase(items: seq<Newsletter>, s1: string, s2: string, filter: string)
    requires Lower(s1) == Lower(s2)
    ensures Filtered(items, s1, filter) == Filtered(items, s2, filter)
    ensures Filtered(items, s1, filter) == Filtered(items, Lower(s1), filter)
  {
    LowerIdempotent(s1);
    if items != [] {
      SearchIgnoresCase(items[1..], s1, s2, filter);
    }
  }

  /** The "all" result holds every item of a single-status result, and at least as
      many items; it is the only filter that shows "scheduled" newsletters, since
      the select offers only "all", "published" and "draft". */
  lemma {:induction false} AllCoversEveryStatus(items: seq<Newsletter>, search: string, filter: string)
    ensures forall n :: n in Filtered(items, search, filter) ==> n in Filtered(items, search, All)
    ensures |Filtered(items, search, filter)| <= |Filtered(items, search, All)|
    ensures forall n :: n in items && n.status == "scheduled" && MatchesSearch(n, search) ==>
      n in Filtered(items, search, All)
  {
    FilteredMembers(items, search, filter);
    FilteredMembers(items, search, All);
    if items != [] {
      AllCoversEveryStatus(items[1..], search, filter);
    }
  }

  /** The empty state shows exactly when loading has ended and no item matches. */
  lemma EmptyStateMeansNoMatch(items: seq<Newsletter>, search: string, filter: string, loading: bool)
    ensures ShowsEmptyState(items, search, filter, loading) <==>
      !loading && forall n :: n in items ==> !Shown(n, search, filter)
  {
    FilteredMembers(items, search, filter);
    var r := Filtered(items, search, filter);
    if r != [] {
      assert r[0] in r;
    }
  }
}
