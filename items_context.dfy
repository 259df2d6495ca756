/** The items/claims store: two record lists, found items and the claims
    made on them, replaced wholesale by every mutator. */
module ItemsContext {
  import opened Wrappers
  import Seqs

  /** The item lifecycle `pending -> approved -> claimed`; the type admits
      no other status. */
  datatype ItemStatus = Pending | Approved | Claimed

  /** The claim lifecycle `pending -> approved | rejected`. */
  datatype ClaimStatus = Pending | Approved | Rejected

  /** The status as the source spells it. */
  function ItemStatusName(s: ItemStatus): string {
    match s
    case Pending => "pending"
    case Approved => "approved"
    case Claimed => "claimed"
  }

  /** `createdAt` is a timestamp in milliseconds; `dateFound` stays text. */
  datatype FoundItem = FoundItem(
    id: string,
    title: string,
    category: string,
    description: string,
    location: string,
    dateFound: string,
    imageUrl: string,
    status: ItemStatus,
    submittedBy: string,
    contactEmail: string,
    createdAt: int)

  /** What `addItem` receives: a found item without id, status and timestamp. */
  datatype ItemDraft = ItemDraft(
    title: string,
    category: string,
    description: string,
    location: string,
    dateFound: string,
    imageUrl: string,
    submittedBy: string,
    contactEmail: string)

  datatype ClaimRequest = ClaimRequest(
    id: string,
    itemId: string,
    claimantName: string,
    claimantEmail: string,
    claimantPhone: string,
    description: string,
    status: ClaimStatus,
    createdAt: int)

  /** What `addClaim` receives: a claim without id, status and timestamp. */
  datatype ClaimDraft = ClaimDraft(
    itemId: string,
    claimantName: string,
    claimantEmail: string,
    claimantPhone: string,
    description: string)

  const BackpackText: string := "Blue JanSport backpack found in the library. Contains textbooks and a notebook."
  const BackpackImage: string := "https://images.unsplash.com/photo-1553062407-98eeb64c6a62?w=400"
  const PhoneText: string := "Black iPhone 13 with cracked screen protector. Found near the cafeteria."
  const PhoneImage: string := "https://images.unsplash.com/photo-1592286927505-b9e2c0e8d9ba?w=400"
  const CalculatorText: string := "TI-84 Plus graphing calculator in blue case."
  const CalculatorImage: string := "https://images.unsplash.com/photo-1587925358603-c2eea5305? w=400"
  const BottleText: string := "Stainless steel Hydro Flask with stickers."
  const BottleImage: string := "https://images.unsplash.com/photo-1602143407151-7111542de6e8?w=400"

  /** The four approved items the store starts with when nothing is stored. */
  function SampleItems(): seq<FoundItem> {
    [ FoundItem("1", "Blue Backpack", "Bags",
        BackpackText,
        "Main Library - 2nd Floor", "2026-01-10",
        BackpackImage,
        ItemStatus.Approved, "John Doe", "john@school.edu", 1768039200000),
      FoundItem("2", "iPhone 13", "Electronics",
        PhoneText,
        "Cafeteria", "2026-01-11",
        PhoneImage,
        ItemStatus.Approved, "Jane Smith", "jane@school.edu", 1768141800000),
      FoundItem("3", "Calculator", "School Supplies",
        CalculatorText,
        "Math Building - Room 301", "2026-01-12",
        CalculatorImage,
        ItemStatus.Approved, "Mike Johnson", "mike@school.edu", 1768209300000),
      FoundItem("4", "Water Bottle", "Personal Items",
        BottleText,
        "Gym Locker Room", "2026-01-12",
        BottleImage,
        ItemStatus.Approved, "Sarah Williams", "sarah@school.edu", 1768236300000) ]
  }

  ghost predicate UniqueItemIds(items: seq<FoundItem>) {
    forall i, j :: 0 <= i < j < |items| ==> items[i].id != items[j].id
  }

  ghost predicate UniqueClaimIds(claims: seq<ClaimRequest>) {
    forall i, j :: 0 <= i < j < |claims| ==> claims[i].id != claims[j].id
  }

  predicate HasItem(items: seq<FoundItem>, id: string) {
    exists i :: 0 <= i < |items| && items[i].id == id
  }

  /** The record `addItem` builds: the draft's fields, the given id and
      timestamp, and status forced to pending. */
  function NewItem(d: ItemDraft, id: string, now: int): (r: FoundItem)
    ensures r.id == id && r.status == ItemStatus.Pending && r.createdAt == now
    ensures r.title == d.title && r.category == d.category && r.description == d.description
    ensures r.location == d.location && r.dateFound == d.dateFound && r.imageUrl == d.imageUrl
    ensures r.submittedBy == d.submittedBy && r.contactEmail == d.contactEmail
  {
    FoundItem(id, d.title, d.category, d.description, d.location, d.dateFound, d.imageUrl,
              ItemStatus.Pending, d.submittedBy, d.contactEmail, now)
  }

  /** The list `updateItemStatus(id, status)` leaves behind. */
  function WithItemStatus(items: seq<FoundItem>, id: string, status: ItemStatus): (r: seq<FoundItem>)
    ensures |r| == |items|
    ensures forall i :: 0 <= i < |items| && items[i].id == id ==> r[i] == items[i].(status := status)
    ensures forall i :: 0 <= i < |items| && items[i].id != id ==> r[i] == items[i]
  {
    Seqs.UpdateWhere(items, (x: FoundItem) => x.id == id, (x: FoundItem) => x.(status := status))
  }

  /** The list `deleteItem(id)` leaves behind. */
  function WithoutItem(items: seq<FoundItem>, id: string): (r: seq<FoundItem>)
    ensures forall x :: x in r <==> x in items && x.id != id
    ensures forall x: FoundItem :: x.id != id ==> multiset(r)[x] == multiset(items)[x]
    ensures Seqs.Subsequence(r, items)
  {
    Seqs.Filter(items, (x: FoundItem) => x.id != id)
  }

  /** The claim list `updateClaimStatus(id, status)` leaves behind: the same
      update as `WithItemStatus`, over claims. */
  function WithClaimStatus(claims: seq<ClaimRequest>, id: string, status: ClaimStatus): (r: seq<ClaimRequest>)
    ensures |r| == |claims|
    ensures forall i :: 0 <= i < |claims| && claims[i].id == id ==> r[i] == claims[i].(status := status)
    ensures forall i :: 0 <= i < |claims| && claims[i].id != id ==> r[i] == claims[i]
  {
    Seqs.UpdateWhere(claims, (c: ClaimRequest) => c.id == id, (c: ClaimRequest) => c.(status := status))
  }

  /** `claims.find(c => c.id === id)`. */
  function FindClaim(claims: seq<ClaimRequest>, id: string): Option<ClaimRequest> {
    Seqs.Find(claims, (c: ClaimRequest) => c.id == id)
  }

  /** The item list after `updateClaimStatus(id, status)`: when the claim is
      approved and a claim with that id existed beforehand, the item of the
      first such claim is marked claimed; otherwise the items are untouched. */
  function ItemsAfterClaimStatus(items: seq<FoundItem>, claims: seq<ClaimRequest>, id: string,
                                 status: ClaimStatus): (r: seq<FoundItem>)
    ensures status != ClaimStatus.Approved ==> r == items
    ensures (forall c :: c in claims ==> c.id != id) ==> r == items
    ensures forall c :: c in claims && c.id == id && status == ClaimStatus.Approved ==>
      r == WithItemStatus(items, FindClaim(claims, id).value.itemId, ItemStatus.Claimed)
  {
    if status == ClaimStatus.Approved then
      match FindClaim(claims, id)
      case Some(c) => WithItemStatus(items, c.itemId, ItemStatus.Claimed)
      case None => items
    else items
  }

  /** Updating to the same status twice is the same as once. */
  lemma ItemStatusIdempotent(items: seq<FoundItem>, id: string, status: ItemStatus)
    ensures WithItemStatus(WithItemStatus(items, id, status), id, status) == WithItemStatus(items, id, status)
  {
  }

  /** An id no item carries leaves the list as it is. */
  lemma ItemStatusAbsentId(items: seq<FoundItem>, id: string, status: ItemStatus)
    requires !HasItem(items, id)
    ensures WithItemStatus(items, id, status) == items
  {
  }

  /** Deleting an id no item carries leaves the list as it is. */
  lemma DeleteAbsentId(items: seq<FoundItem>, id: string)
    requires !HasItem(items, id)
    ensures WithoutItem(items, id) == items
  {
    Seqs.FilterAll(items, (x: FoundItem) => x.id != id);
  }

  /** With unique ids, deleting a present id shortens the list by one. */
  lemma {:induction false} DeleteUniqueShrinks(items: seq<FoundItem>, id: string)
    requires UniqueItemIds(items)
    ensures |WithoutItem(items, id)| == if HasItem(items, id) then |items| - 1 else |items|
  {
    if items != [] {
      UniqueTail(items);
      DeleteUniqueShrinks(items[1..], id);
      HasItemCons(items, id);
      DeleteCons(items, id);
      HeadNotInTail(items);
    }
  }

  lemma HeadNotInTail(items: seq<FoundItem>)
    requires items != [] && UniqueItemIds(items)
    ensures !HasItem(items[1..], items[0].id)
  {
    forall k | 0 <= k < |items[1..]| ensures items[1..][k].id != items[0].id {
      assert items[1..][k] == items[k + 1];
    }
  }

  lemma UniqueTail(items: seq<FoundItem>)
    requires items != [] && UniqueItemIds(items)
    ensures UniqueItemIds(items[1..])
  {
    forall i, j | 0 <= i < j < |items[1..]| ensures items[1..][i].id != items[1..][j].id {
      assert items[1..][i] == items[i + 1] && items[1..][j] == items[j + 1];
    }
  }

  lemma HasItemCons(items: seq<FoundItem>, id: string)
    requires items != []
    ensures HasItem(items, id) <==> items[0].id == id || HasItem(items[1..], id)
  {
    if HasItem(items[1..], id) {
      var k :| 0 <= k < |items[1..]| && items[1..][k].id == id;
      assert items[k + 1] == items[1..][k];
    }
    if HasItem(items, id) && items[0].id != id {
      var k :| 0 <= k < |items| && items[k].id == id;
      assert items[1..][k - 1] == items[k];
    }
  }

  lemma DeleteCons(items: seq<FoundItem>, id: string)
    requires items != []
    ensures WithoutItem(items, id) ==
      if items[0].id != id then [items[0]] + WithoutItem(items[1..], id) else WithoutItem(items[1..], id)
  {
  }

  /** A status update keeps every id where it was, so unique ids stay unique. */
  lemma ItemStatusKeepsIds(items: seq<FoundItem>, id: string, status: ItemStatus)
    requires UniqueItemIds(items)
    ensures UniqueItemIds(WithItemStatus(items, id, status))
  {
  }

  /** Deleting keeps a subsequence, so unique ids stay unique. */
  lemma DeleteKeepsIdsUnique(items: seq<FoundItem>, id: string)
    requires UniqueItemIds(items)
    ensures UniqueItemIds(WithoutItem(items, id))
  {
    SubsequenceKeepsIdsUnique(WithoutItem(items, id), items);
  }

  lemma {:induction false} SubsequenceKeepsIdsUnique(r: seq<FoundItem>, s: seq<FoundItem>)
    requires Seqs.Subsequence(r, s) && UniqueItemIds(s)
    ensures UniqueItemIds(r)
    decreases |s|
  {
    if r != [] {
      assert s != [];
      if r[0] == s[0] && Seqs.Subsequence(r[1..], s[1..]) {
        SubsequenceKeepsIdsUnique(r[1..], s[1..]);
        SubsequenceMembers(r[1..], s[1..]);
        forall j | 0 < j < |r| ensures r[0].id != r[j].id {
          assert r[j] == r[1..][j - 1] && r[j] in s[1..];
          var k :| 0 <= k < |s[1..]| && s[1..][k] == r[j];
          assert s[k + 1] == r[j];
        }
      } else {
        SubsequenceKeepsIdsUnique(r, s[1..]);
      }
    }
  }

  lemma {:induction false} SubsequenceMembers<T(!new)>(r: seq<T>, s: seq<T>)
    requires Seqs.Subsequence(r, s)
    ensures forall x :: x in r ==> x in s
    decreases |s|
  {
    if r != [] {
      if r[0] == s[0] && Seqs.Subsequence(r[1..], s[1..]) {
        SubsequenceMembers(r[1..], s[1..]);
        assert r == [r[0]] + r[1..];
      } else {
        SubsequenceMembers(r, s[1..]);
      }
    }
  }

  /** Approving a claim that existed marks its item claimed, and every item
      with that id then reads as claimed. */
  lemma ApprovedClaimMarksItem(items: seq<FoundItem>, claims: seq<ClaimRequest>, id: string, c: ClaimRequest)
    requires FindClaim(claims, id) == Some(c)
    ensures c in claims && c.id == id
    ensures forall x :: x in ItemsAfterClaimStatus(items, claims, id, ClaimStatus.Approved) && x.id == c.itemId ==>
      x.status == ItemStatus.Claimed
    ensures |ItemsAfterClaimStatus(items, claims, id, ClaimStatus.Approved)| == |items|
  {
    var r := ItemsAfterClaimStatus(items, claims, id, ClaimStatus.Approved);
    assert r == WithItemStatus(items, c.itemId, ItemStatus.Claimed);
    forall x | x in r && x.id == c.itemId ensures x.status == ItemStatus.Claimed {
      var k :| 0 <= k < |r| && r[k] == x;
    }
  }

  /** The store. Every mutator replaces a list by a function of the old one. */
  class ItemsProvider {
    var items: seq<FoundItem>
    var claims: seq<ClaimRequest>

    /** Starts from the decoded stored lists, or from the sample items and no
        claims when nothing usable is stored. */
    constructor (storedItems: Option<seq<FoundItem>>, storedClaims: Option<seq<ClaimRequest>>)
      ensures items == if storedItems.Some? then storedItems.value else SampleItems()
      ensures claims == if storedClaims.Some? then storedClaims.value else []
    {
      items := if storedItems.Some? then storedItems.value else SampleItems();
      claims := if storedClaims.Some? then storedClaims.value else [];
    }

    /** Prepends a pending item with the given id and timestamp. */
    method AddItem(draft: ItemDraft, id: string, now: int)
      modifies this
      ensures items == [NewItem(draft, id, now)] + old(items)
      ensures |items| == |old(items)| + 1 && items[1..] == old(items)
      ensures items[0].status == ItemStatus.Pending && items[0].id == id
      ensures claims == old(claims)
      ensures UniqueItemIds(old(items)) && !HasItem(old(items), id) ==> UniqueItemIds(items)
    {
      items := [NewItem(draft, id, now)] + items;
    }

    method UpdateItemStatus(id: string, status: ItemStatus)
      modifies this
      ensures items == WithItemStatus(old(items), id, status)
      ensures claims == old(claims)
      ensures UniqueItemIds(old(items)) ==> UniqueItemIds(items)
    {
      items := WithItemStatus(items, id, status);
    }

    method DeleteItem(id: string)
      modifies this
      ensures items == WithoutItem(old(items), id)
      ensures !HasItem(items, id)
      ensures claims == old(claims)
      ensures UniqueItemIds(old(items)) ==> UniqueItemIds(items)
    {
      if UniqueItemIds(items) {
        DeleteKeepsIdsUnique(items, id);
      }
      items := WithoutItem(items, id);
    }

    /** Prepends a pending claim with the given id and timestamp. */
    method AddClaim(draft: ClaimDraft, id: string, now: int)
      modifies this
      ensures claims == [ClaimRequest(id, draft.itemId, draft.claimantName, draft.claimantEmail,
                                      draft.claimantPhone, draft.description, ClaimStatus.Pending, now)]
                        + old(claims)
      ensures |claims| == |old(claims)| + 1 && claims[1..] == old(claims)
      ensures items == old(items)
      ensures UniqueClaimIds(old(claims)) && (forall c :: c in old(claims) ==> c.id != id)
              ==> UniqueClaimIds(claims)
    {
      var c := ClaimRequest(id, draft.itemId, draft.claimantName, draft.claimantEmail,
                            draft.claimantPhone, draft.description, ClaimStatus.Pending, now);
      claims := [c] + claims;
    }

    /** Sets the status of the claims with that id; approving also marks the
        item of the first such claim, as it was before the call, claimed. */
    method UpdateClaimStatus(id: string, status: ClaimStatus)
      modifies this
      ensures claims == WithClaimStatus(old(claims), id, status)
      ensures items == ItemsAfterClaimStatus(old(items), old(claims), id, status)
    {
      var before := claims;
      claims := WithClaimStatus(claims, id, status);
      if status == ClaimStatus.Approved {
        var found := FindClaim(before, id);
        if found.Some? {
          UpdateItemStatus(found.value.itemId, ItemStatus.Claimed);
        }
      }
    }
  }
}
