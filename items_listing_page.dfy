/** The browse page's pipeline: a free-text search over title, description
    and location, a category and a status filter, then a stable sort chosen
    by the user. */
module ItemsListingPage {
  import opened Text
  import Seqs
  import opened ItemsContext

  /** The page's filter state. */
  datatype Filters = Filters(searchTerm: string, categoryFilter: string, statusFilter: string, sortBy: string)

  /** The state the page opens with: no search, every category, only the
      approved items, newest first. */
  function DefaultFilters(): Filters {
    Filters("", "all", "approved", "recent")
  }

  /** "Clear All Filters": empties the search, resets the category filter to
      every category and the status filter to approved, and keeps the sort. */
  function ClearAll(f: Filters): (r: Filters)
    ensures r.searchTerm == "" && r.categoryFilter == "all" && r.statusFilter == "approved"
    ensures r.sortBy == f.sortBy
  {
    f.(searchTerm := "", categoryFilter := "all", statusFilter := "approved")
  }

  /** The lower-cased term occurs in the lower-cased title, description or
      location; the category is not searched. */
  predicate MatchesSearch(x: FoundItem, term: string) {
    || Contains(Lower(x.title), Lower(term))
    || Contains(Lower(x.description), Lower(term))
    || Contains(Lower(x.location), Lower(term))
  }

  predicate Matches(x: FoundItem, f: Filters) {
    && MatchesSearch(x, f.searchTerm)
    && (f.categoryFilter == "all" || x.category == f.categoryFilter)
    && (f.statusFilter == "all" || ItemStatusName(x.status) == f.statusFilter)
  }

  /** `filteredItems` before sorting: exactly the matching items, each as
      often as in the list, in list order. */
  function FilterItems(items: seq<FoundItem>, f: Filters): (r: seq<FoundItem>)
    ensures forall x :: x in r <==> x in items && Matches(x, f)
    ensures forall x :: multiset(r)[x] == if Matches(x, f) then multiset(items)[x] else 0
    ensures Seqs.Subsequence(r, items)
  {
    Seqs.Filter(items, x => Matches(x, f))
  }

  /** Two items that differ only in category match the same search terms. */
  lemma CategoryNotSearched(x: FoundItem, category: string, term: string)
    ensures MatchesSearch(x.(category := category), term) == MatchesSearch(x, term)
  {
  }

  /** The empty term occurs in every string. */
  lemma EmptyTermMatches(x: FoundItem)
    ensures MatchesSearch(x, "")
  {
    assert Lower("") == "";
    assert OccursAt(Lower(x.title), "", 0);
  }

  /** With no search and both filters at "all", nothing is filtered out. */
  lemma NoFilterKeepsAll(items: seq<FoundItem>, sortBy: string)
    ensures FilterItems(items, Filters("", "all", "all", sortBy)) == items
  {
    var f := Filters("", "all", "all", sortBy);
    forall x | x in items ensures Matches(x, f) {
      EmptyTermMatches(x);
    }
    Seqs.FilterAll(items, x => Matches(x, f));
  }

  /** `a.title.localeCompare(b.title) <= 0`, taken as the lexicographic
      order of code points. */
  predicate LexLeq(a: string, b: string)
    decreases |a|
  {
    if a == [] then true
    else if b == [] then false
    else if a[0] != b[0] then a[0] < b[0]
    else LexLeq(a[1..], b[1..])
  }

  lemma {:induction false} LexLeqTotal(a: string, b: string)
    ensures LexLeq(a, b) || LexLeq(b, a)
    decreases |a|
  {
    if a != [] && b != [] && a[0] == b[0] {
      LexLeqTotal(a[1..], b[1..]);
    }
  }

  lemma {:induction false} LexLeqTransitive(a: string, b: string, c: string)
    requires LexLeq(a, b) && LexLeq(b, c)
    ensures LexLeq(a, c)
    decreases |a|
  {
    if a != [] && b != [] && c != [] && a[0] == b[0] && b[0] == c[0] {
      LexLeqTransitive(a[1..], b[1..], c[1..]);
    }
  }

  /** `a` may stay before `b` under the chosen sort: the comparator does not
      return a positive number. Unknown sort keys compare everything equal. */
  predicate SortLeq(sortBy: string, a: FoundItem, b: FoundItem) {
    if sortBy == "recent" then a.createdAt >= b.createdAt
    else if sortBy == "oldest" then a.createdAt <= b.createdAt
    else if sortBy == "title" then LexLeq(a.title, b.title)
    else true
  }

  lemma SortLeqIsOrder(sortBy: string)
    ensures Seqs.Total((a, b) => SortLeq(sortBy, a, b))
    ensures Seqs.Transitive((a, b) => SortLeq(sortBy, a, b))
  {
    forall a: FoundItem, b: FoundItem ensures SortLeq(sortBy, a, b) || SortLeq(sortBy, b, a) {
      LexLeqTotal(a.title, b.title);
    }
    forall a: FoundItem, b: FoundItem, c: FoundItem | SortLeq(sortBy, a, b) && SortLeq(sortBy, b, c)
      ensures SortLeq(sortBy, a, c)
    {
      if sortBy == "title" {
        LexLeqTransitive(a.title, b.title, c.title);
      }
    }
  }

  /** The list the page shows: the matching items, stably sorted. */
  function VisibleItems(items: seq<FoundItem>, f: Filters): (r: seq<FoundItem>)
    ensures multiset(r) == multiset(FilterItems(items, f))
    ensures forall x :: x in r <==> x in items && Matches(x, f)
    ensures forall i, j :: 0 <= i < j < |r| ==> SortLeq(f.sortBy, r[i], r[j])
  {
    SortLeqIsOrder(f.sortBy);
    var leq := (a, b) => SortLeq(f.sortBy, a, b);
    var r := Seqs.SortBy(FilterItems(items, f), leq);
    assert forall x :: x in r <==> x in multiset(r);
    assert forall i, j :: 0 <= i < j < |r| ==> leq(r[i], r[j]);
    r
  }

  /** "Most Recent" lists newer items first. */
  lemma RecentIsNewestFirst(items: seq<FoundItem>, f: Filters)
    requires f.sortBy == "recent"
    ensures forall i, j :: 0 <= i < j < |VisibleItems(items, f)| ==>
      VisibleItems(items, f)[i].createdAt >= VisibleItems(items, f)[j].createdAt
  {
  }

  /** "Oldest First" lists older items first. */
  lemma OldestIsOldestFirst(items: seq<FoundItem>, f: Filters)
    requires f.sortBy == "oldest"
    ensures forall i, j :: 0 <= i < j < |VisibleItems(items, f)| ==>
      VisibleItems(items, f)[i].createdAt <= VisibleItems(items, f)[j].createdAt
  {
  }

  /** An unknown sort key keeps the filtered items in list order. */
  lemma UnknownSortKeepsOrder(items: seq<FoundItem>, f: Filters)
    requires f.sortBy != "recent" && f.sortBy != "oldest" && f.sortBy != "title"
    ensures VisibleItems(items, f) == FilterItems(items, f)
  {
    Seqs.SortByEqualKeeps(FilterItems(items, f), (a, b) => SortLeq(f.sortBy, a, b));
  }

  /** With no search and both filters at "all", the page shows every item. */
  lemma NoFilterShowsAll(items: seq<FoundItem>, sortBy: string)
    ensures multiset(VisibleItems(items, Filters("", "all", "all", sortBy))) == multiset(items)
  {
    NoFilterKeepsAll(items, sortBy);
  }
}
