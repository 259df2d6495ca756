/** The admin dashboard's logic: the status partitions and the statistics
    drawn from them, the category tally behind the bar chart, the five most
    recent items, the success rate, and the four moderation handlers. */
module AdminPage {
  import opened Wrappers
  import Seqs
  import opened ItemsContext

  predicate IsPending(x: FoundItem) { x.status == ItemStatus.Pending }
  predicate IsApproved(x: FoundItem) { x.status == ItemStatus.Approved }
  predicate IsClaimed(x: FoundItem) { x.status == ItemStatus.Claimed }
  predicate IsPendingClaim(c: ClaimRequest) { c.status == ClaimStatus.Pending }

  function PendingItems(items: seq<FoundItem>): seq<FoundItem> { Seqs.Filter(items, IsPending) }
  function ApprovedItems(items: seq<FoundItem>): seq<FoundItem> { Seqs.Filter(items, IsApproved) }
  function ClaimedItems(items: seq<FoundItem>): seq<FoundItem> { Seqs.Filter(items, IsClaimed) }

  /** The claims listed for moderation: the pending ones, in store order. */
  function PendingClaims(claims: seq<ClaimRequest>): (r: seq<ClaimRequest>)
    ensures forall c :: c in r <==> c in claims && c.status == ClaimStatus.Pending
    ensures forall c :: multiset(r)[c] == if c.status == ClaimStatus.Pending then multiset(claims)[c] else 0
    ensures Seqs.Subsequence(r, claims)
  {
    Seqs.Filter(claims, IsPendingClaim)
  }

  /** Every item has exactly one of the three statuses, so the three lists
      together are as long as the item list. */
  lemma {:induction false} StatusPartition(items: seq<FoundItem>)
    ensures |PendingItems(items)| + |ApprovedItems(items)| + |ClaimedItems(items)| == |items|
  {
    if items != [] {
      StatusPartition(items[1..]);
    }
  }

  /** One slice of the status pie chart. */
  datatype Slice = Slice(name: string, value: nat)

  function StatusData(items: seq<FoundItem>): seq<Slice> {
    [ Slice("Available", |ApprovedItems(items)|),
      Slice("Claimed", |ClaimedItems(items)|),
      Slice("Pending", |PendingItems(items)|) ]
  }

  predicate NonZero(s: Slice) { s.value > 0 }

  /** The slices the pie chart draws: those with a positive value, in order. */
  function FilteredStatusData(items: seq<FoundItem>): (r: seq<Slice>)
    ensures forall s :: s in r <==> s in StatusData(items) && s.value > 0
    ensures Seqs.Subsequence(r, StatusData(items))
  {
    Seqs.Filter(StatusData(items), NonZero)
  }

  /** The pie chart is empty exactly when there are no items. */
  lemma FilteredStatusEmpty(items: seq<FoundItem>)
    ensures FilteredStatusData(items) == [] <==> items == []
  {
    StatusPartition(items);
    var d := StatusData(items);
    var r := FilteredStatusData(items);
    if d[0].value > 0 {
      assert d[0] in r;
    } else if d[1].value > 0 {
      assert d[1] in r;
    } else if d[2].value > 0 {
      assert d[2] in r;
    }
  }

  /** The categories of the items, in item order. */
  function CategoryList(items: seq<FoundItem>): (r: seq<string>)
    ensures |r| == |items|
    ensures forall i :: 0 <= i < |items| ==> r[i] == items[i].category
  {
    seq(|items|, i requires 0 <= i < |items| => items[i].category)
  }

  ghost predicate Distinct(s: seq<string>) {
    forall i, j :: 0 <= i < j < |s| ==> s[i] != s[j]
  }

  /** The distinct elements of `s`, each where it first appears: the order
      in which keys enter the tally object. */
  function Appearance(s: seq<string>): (r: seq<string>)
    ensures forall x :: x in r <==> x in s
    ensures Distinct(r)
    decreases |s|
  {
    if s == [] then []
    else
      var last := s[|s| - 1];
      assert s == s[..|s| - 1] + [last];
      var prev := Appearance(s[..|s| - 1]);
      if last in prev then prev else prev + [last]
  }

  /** The sum of the counts of `keys`. */
  function SumCounts(keys: seq<string>, m: map<string, nat>): nat
    requires forall k :: k in keys ==> k in m
  {
    if keys == [] then 0 else m[keys[0]] + SumCounts(keys[1..], m)
  }

  lemma {:induction false} SumCountsOutside(keys: seq<string>, m: map<string, nat>, c: string, v: nat)
    requires forall k :: k in keys ==> k in m
    requires c !in keys
    ensures SumCounts(keys, m[c := v]) == SumCounts(keys, m)
  {
    if keys != [] {
      SumCountsOutside(keys[1..], m, c, v);
    }
  }

  lemma {:induction false} SumCountsBump(keys: seq<string>, m: map<string, nat>, c: string)
    requires forall k :: k in keys ==> k in m
    requires Distinct(keys) && c in keys
    ensures SumCounts(keys, m[c := m[c] + 1]) == SumCounts(keys, m) + 1
  {
    if keys[0] == c {
      assert c !in keys[1..] by {
        forall j | 0 <= j < |keys[1..]| ensures keys[1..][j] != c {
          assert keys[1..][j] == keys[j + 1];
        }
      }
      SumCountsOutside(keys[1..], m, c, m[c] + 1);
    } else {
      SumCountsBump(keys[1..], m, c);
    }
  }

  lemma {:induction false} SumCountsAppend(keys: seq<string>, m: map<string, nat>, c: string)
    requires forall k :: k in keys ==> k in m
    requires c in m
    ensures SumCounts(keys + [c], m) == SumCounts(keys, m) + m[c]
  {
    if keys != [] {
      assert (keys + [c])[1..] == keys[1..] + [c];
      SumCountsAppend(keys[1..], m, c);
    }
  }

  /** One more element adds itself to the first-appearance list when new. */
  lemma AppearanceStep(s: seq<string>, c: string)
    ensures Appearance(s + [c]) == if c in Appearance(s) then Appearance(s) else Appearance(s) + [c]
  {
    assert (s + [c])[..|s|] == s;
  }

  /** `keys` lists the distinct elements of `s` by first appearance, and
      `counts` gives each of them its number of occurrences in `s`. */
  ghost predicate Tallied(s: seq<string>, keys: seq<string>, counts: map<string, nat>) {
    && keys == Appearance(s)
    && (forall c :: c in counts <==> c in keys)
    && (forall c :: c in counts ==> counts[c] == multiset(s)[c])
    && SumCounts(keys, counts) == |s|
  }

  /** Counting an element already seen bumps its count. */
  lemma TallyBump(s: seq<string>, c: string, keys: seq<string>, counts: map<string, nat>)
    requires Tallied(s, keys, counts) && c in counts
    ensures Tallied(s + [c], keys, counts[c := counts[c] + 1])
  {
    assert c in keys;
    AppearanceStep(s, c);
    CountsStep(s, c, counts);
    SumCountsBump(keys, counts, c);
  }

  /** Counting a new element starts it at one and appends it to the keys. */
  lemma TallyNew(s: seq<string>, c: string, keys: seq<string>, counts: map<string, nat>)
    requires Tallied(s, keys, counts) && c !in counts
    ensures Tallied(s + [c], keys + [c], counts[c := 1])
  {
    assert c !in keys && c !in s;
    AppearanceStep(s, c);
    CountsStep(s, c, counts);
    SumCountsOutside(keys, counts, c, 1);
    SumCountsAppend(keys, counts[c := 1], c);
  }

  /** The counts after one more element: the element's count goes up by
      one, starting from zero when it had none. */
  lemma CountsStep(s: seq<string>, c: string, counts: map<string, nat>)
    requires forall d :: d in counts ==> counts[d] == multiset(s)[d]
    requires c !in counts ==> c !in s
    ensures var next := if c in counts then counts[c := counts[c] + 1] else counts[c := 1];
      forall d :: d in next ==> next[d] == multiset(s + [c])[d]
  {
    assert multiset(s + [c]) == multiset(s) + multiset{c};
  }

  /** The two steps for the `i`-th element of `cats`. */
  lemma TallyBumpAt(cats: seq<string>, i: int, keys: seq<string>, counts: map<string, nat>)
    requires 0 <= i < |cats| && Tallied(cats[..i], keys, counts) && cats[i] in counts
    ensures Tallied(cats[..i + 1], keys, counts[cats[i] := counts[cats[i]] + 1])
  {
    assert cats[..i + 1] == cats[..i] + [cats[i]];
    TallyBump(cats[..i], cats[i], keys, counts);
  }

  lemma TallyNewAt(cats: seq<string>, i: int, keys: seq<string>, counts: map<string, nat>)
    requires 0 <= i < |cats| && Tallied(cats[..i], keys, counts) && cats[i] !in counts
    ensures Tallied(cats[..i + 1], keys + [cats[i]], counts[cats[i] := 1])
  {
    assert cats[..i + 1] == cats[..i] + [cats[i]];
    TallyNew(cats[..i], cats[i], keys, counts);
  }

  /** Every tallied key occurs at least once. */
  lemma TalliedPositive(s: seq<string>, keys: seq<string>, counts: map<string, nat>)
    requires Tallied(s, keys, counts)
    ensures forall c :: c in counts ==> counts[c] >= 1
  {
    forall c | c in counts ensures counts[c] >= 1 {
      assert c in s;
    }
  }

  /** The `reduce` behind the category chart: one key per distinct category,
      in order of first appearance, each counting the items of that category;
      no count is zero and the counts add up to the number of items. */
  method CategoryTally(items: seq<FoundItem>) returns (keys: seq<string>, counts: map<string, nat>)
    ensures keys == Appearance(CategoryList(items))
    ensures forall c :: c in counts <==> c in keys
    ensures forall c :: c in counts ==> counts[c] == multiset(CategoryList(items))[c] && counts[c] >= 1
    ensures SumCounts(keys, counts) == |items|
  {
    ghost var cats := CategoryList(items);
    keys := [];
    counts := map[];
    var i := 0;
    while i < |items|
      invariant 0 <= i <= |items|
      invariant Tallied(cats[..i], keys, counts)
    {
      var c := items[i].category;
      assert cats[i] == c;
      if c in counts {
        TallyBumpAt(cats, i, keys, counts);
        counts := counts[c := counts[c] + 1];
      } else {
        TallyNewAt(cats, i, keys, counts);
        counts := counts[c := 1];
        keys := keys + [c];
      }
      i := i + 1;
    }
    assert cats[..|items|] == cats;
    TalliedPositive(cats, keys, counts);
  }

  /** The comparator of `recentActivity`: newer first. */
  predicate NewerFirst(a: FoundItem, b: FoundItem) {
    a.createdAt >= b.createdAt
  }

  lemma NewerFirstIsOrder()
    ensures Seqs.Total(NewerFirst) && Seqs.Transitive(NewerFirst)
  {
  }

  /** `recentActivity`: the items sorted newest first, cut to five. They are
      items of the list, newest first, and none of the items left out is
      newer than any item shown. */
  function RecentActivity(items: seq<FoundItem>): (r: seq<FoundItem>)
    ensures |r| == if |items| < 5 then |items| else 5
    ensures multiset(r) <= multiset(items)
    ensures forall i, j :: 0 <= i < j < |r| ==> r[i].createdAt >= r[j].createdAt
    ensures forall x, y :: x in r && y in multiset(items) - multiset(r) ==> x.createdAt >= y.createdAt
  {
    NewerFirstIsOrder();
    var sorted := Seqs.SortBy(items, NewerFirst);
    var m := if |items| < 5 then |items| else 5;
    SortedPrefixIsNewest(sorted, m);
    sorted[..m]
  }

  /** A prefix of a list sorted newest first is sorted newest first, and no
      element after it is newer than an element in it. */
  lemma SortedPrefixIsNewest(sorted: seq<FoundItem>, m: nat)
    requires Seqs.SortedBy(sorted, NewerFirst) && m <= |sorted|
    ensures multiset(sorted[..m]) <= multiset(sorted)
    ensures multiset(sorted) - multiset(sorted[..m]) == multiset(sorted[m..])
    ensures forall i, j :: 0 <= i < j < m ==> sorted[..m][i].createdAt >= sorted[..m][j].createdAt
    ensures forall x, y :: x in sorted[..m] && y in multiset(sorted[m..]) ==> x.createdAt >= y.createdAt
  {
    var r := sorted[..m];
    assert sorted == r + sorted[m..];
    forall i, j | 0 <= i < j < m ensures r[i].createdAt >= r[j].createdAt {
      assert NewerFirst(sorted[i], sorted[j]);
    }
    forall x, y | x in r && y in multiset(sorted[m..]) ensures x.createdAt >= y.createdAt {
      var a :| 0 <= a < m && r[a] == x;
      var b :| 0 <= b < |sorted[m..]| && sorted[m..][b] == y;
      assert NewerFirst(sorted[a], sorted[m + b]);
    }
  }

  /** `Math.round(part / whole * 100)` in exact arithmetic, `0` when there is
      nothing to divide by: the whole number nearest to the percentage, a
      half rounding up. */
  function RoundedPercent(part: nat, whole: nat): (r: nat)
    ensures whole == 0 ==> r == 0
    ensures whole > 0 ==> 2 * whole * r <= 200 * part + whole < 2 * whole * r + 2 * whole
  {
    if whole == 0 then 0 else (200 * part + whole) / (2 * whole)
  }

  /** A part of the whole rounds to a percentage of at most 100. */
  lemma RoundedPercentBound(part: nat, whole: nat)
    requires part <= whole
    ensures RoundedPercent(part, whole) <= 100
  {
    if whole > 0 {
      var r := RoundedPercent(part, whole);
      if r > 100 {
        MulAtLeast(2 * whole, r, 101);
        assert false;
      }
    }
  }

  /** Multiplying by a positive factor keeps `>=`. */
  lemma {:induction false} MulAtLeast(w: nat, a: nat, b: nat)
    requires a >= b
    ensures w * a >= w * b
  {
    if w > 0 {
      MulAtLeast(w - 1, a, b);
      assert w * a == (w - 1) * a + a;
      assert w * b == (w - 1) * b + b;
    }
  }

  /** The "Overall Success Rate": claimed items as a rounded percentage of
      all items, between 0 and 100, and 0 for an empty list. */
  function SuccessRate(items: seq<FoundItem>): (r: nat)
    ensures items == [] ==> r == 0
    ensures items != [] ==> 2 * |items| * r <= 200 * |ClaimedItems(items)| + |items| < 2 * |items| * r + 2 * |items|
    ensures r <= 100
  {
    RoundedPercentBound(|ClaimedItems(items)|, |items|);
    RoundedPercent(|ClaimedItems(items)|, |items|)
  }

  /** The title shown beside a claim: that of the first item with the
      claim's item id, or "Unknown Item" when there is none or its title is
      empty. */
  function ClaimItemTitle(items: seq<FoundItem>, itemId: string): (r: string)
    ensures (forall x :: x in items ==> x.id != itemId) ==> r == "Unknown Item"
    ensures forall i ::
      (0 <= i < |items| && items[i].id == itemId && items[i].title != ""
       && forall j :: 0 <= j < i ==> items[j].id != itemId)
      ==> r == items[i].title
    ensures forall i ::
      (0 <= i < |items| && items[i].id == itemId && items[i].title == ""
       && forall j :: 0 <= j < i ==> items[j].id != itemId)
      ==> r == "Unknown Item"
  {
    match Seqs.Find(items, (x: FoundItem) => x.id == itemId)
    case Some(x) => if x.title == "" then "Unknown Item" else x.title
    case None => "Unknown Item"
  }

  method HandleApproveItem(store: ItemsProvider, id: string)
    modifies store
    ensures store.items == WithItemStatus(old(store.items), id, ItemStatus.Approved)
    ensures store.claims == old(store.claims)
  {
    store.UpdateItemStatus(id, ItemStatus.Approved);
  }

  /** Rejecting an item removes it. */
  method HandleRejectItem(store: ItemsProvider, id: string)
    modifies store
    ensures store.items == WithoutItem(old(store.items), id)
    ensures !HasItem(store.items, id)
    ensures store.claims == old(store.claims)
  {
    store.DeleteItem(id);
  }

  /** Approves the claim, then marks its item claimed a second time. */
  method HandleApproveClaim(store: ItemsProvider, claimId: string, itemId: string)
    modifies store
    ensures store.claims == WithClaimStatus(old(store.claims), claimId, ClaimStatus.Approved)
    ensures store.items == WithItemStatus(
      ItemsAfterClaimStatus(old(store.items), old(store.claims), claimId, ClaimStatus.Approved),
      itemId, ItemStatus.Claimed)
  {
    store.UpdateClaimStatus(claimId, ClaimStatus.Approved);
    store.UpdateItemStatus(itemId, ItemStatus.Claimed);
  }

  /** Rejecting a claim changes its status and leaves the items alone. */
  method HandleRejectClaim(store: ItemsProvider, claimId: string)
    modifies store
    ensures store.claims == WithClaimStatus(old(store.claims), claimId, ClaimStatus.Rejected)
    ensures store.items == old(store.items)
  {
    store.UpdateClaimStatus(claimId, ClaimStatus.Rejected);
  }

  /** When the claim being approved is the first with its id (as it is when
      claim ids are unique), the store has already marked its item claimed,
      so the handler's second update changes nothing. */
  lemma ApproveClaimSecondUpdateRedundant(items: seq<FoundItem>, claims: seq<ClaimRequest>, c: ClaimRequest)
    requires FindClaim(claims, c.id) == Some(c)
    ensures WithItemStatus(ItemsAfterClaimStatus(items, claims, c.id, ClaimStatus.Approved),
                           c.itemId, ItemStatus.Claimed)
            == ItemsAfterClaimStatus(items, claims, c.id, ClaimStatus.Approved)
  {
    ItemStatusIdempotent(items, c.itemId, ItemStatus.Claimed);
  }

  /** With unique claim ids, any listed claim is the one `find` returns. */
  lemma UniqueClaimIsFound(claims: seq<ClaimRequest>, c: ClaimRequest)
    requires UniqueClaimIds(claims) && c in claims
    ensures FindClaim(claims, c.id) == Some(c)
  {
    var k :| 0 <= k < |claims| && claims[k] == c;
    var f := FindClaim(claims, c.id);
    var i :| 0 <= i < |claims| && claims[i] == f.value && claims[i].id == c.id
             && forall j :: 0 <= j < i ==> claims[j].id != c.id;
    assert i == k;
  }
}
