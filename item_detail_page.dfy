/** The item detail page: the item the route names, the claim form and
    which of the claim dialog or a notice the item's status offers. */
module ItemDetailPage {
  import opened Wrappers
  import Seqs
  import opened ItemsContext

  /** `items.find(i => i.id === id)`: the first item with the route's id. */
  function ItemById(items: seq<FoundItem>, id: string): (r: Option<FoundItem>)
    ensures r.None? <==> !HasItem(items, id)
    ensures r.Some? ==> exists i :: 0 <= i < |items| && items[i] == r.value && r.value.id == id
                                    && forall j :: 0 <= j < i ==> items[j].id != id
  {
    Seqs.Find(items, (x: FoundItem) => x.id == id)
  }

  /** With unique ids, the page shows the one item carrying the route's id. */
  lemma ItemByIdUnique(items: seq<FoundItem>, k: int)
    requires UniqueItemIds(items) && 0 <= k < |items|
    ensures ItemById(items, items[k].id) == Some(items[k])
  {
    var r := ItemById(items, items[k].id);
    var i :| 0 <= i < |items| && items[i] == r.value && r.value.id == items[k].id
             && forall j :: 0 <= j < i ==> items[j].id != items[k].id;
    assert !(i < k) && !(k < i);
  }

  /** What `item.status` offers below the details: the claim dialog only
      for an approved item, a fixed notice for a claimed or pending one. */
  datatype ClaimPanel = ClaimDialog | ClaimedNotice | PendingNotice

  function PanelFor(status: ItemStatus): (r: ClaimPanel)
    ensures r == ClaimDialog <==> status == ItemStatus.Approved
    ensures r == ClaimedNotice <==> status == ItemStatus.Claimed
    ensures r == PendingNotice <==> status == ItemStatus.Pending
  {
    match status
    case Approved => ClaimDialog
    case Claimed => ClaimedNotice
    case Pending => PendingNotice
  }

  /** The page for a route id: the not-found view, or the item and its panel. */
  datatype PageView = NotFoundView | DetailView(item: FoundItem, panel: ClaimPanel)

  function View(items: seq<FoundItem>, id: string): (r: PageView)
    ensures r.NotFoundView? <==> !HasItem(items, id)
    ensures r.DetailView? ==> r.item in items && r.item.id == id && r.panel == PanelFor(r.item.status)
  {
    match ItemById(items, id)
    case None => NotFoundView
    case Some(x) => DetailView(x, PanelFor(x.status))
  }

  /** Once a claim is approved, its item's page no longer offers the claim
      dialog: the store has marked the item claimed. */
  lemma ApprovedClaimClosesDialog(items: seq<FoundItem>, claims: seq<ClaimRequest>, id: string,
                                  c: ClaimRequest)
    requires FindClaim(claims, id) == Some(c)
    ensures View(ItemsAfterClaimStatus(items, claims, id, ClaimStatus.Approved), c.itemId).DetailView? ==>
      View(ItemsAfterClaimStatus(items, claims, id, ClaimStatus.Approved), c.itemId).panel == ClaimedNotice
  {
    ApprovedClaimMarksItem(items, claims, id, c);
  }

  /** The claim form: phone is the only optional field. */
  datatype ClaimData = ClaimData(
    claimantName: string,
    claimantEmail: string,
    claimantPhone: string,
    description: string)

  const EmptyClaimData: ClaimData := ClaimData("", "", "", "")

  /** The required-field check of `handleClaimSubmit`: only the empty string
      fails, so text made of spaces passes. */
  predicate ClaimComplete(d: ClaimData) {
    d.claimantName != "" && d.claimantEmail != "" && d.description != ""
  }

  /** The page's state: the claim form and whether its dialog is open. */
  class ItemDetailState {
    var claimData: ClaimData
    var open: bool

    constructor ()
      ensures claimData == EmptyClaimData && !open
    {
      claimData := EmptyClaimData;
      open := false;
    }

    /** `handleClaimSubmit` on the page of `item`: an incomplete form changes
        nothing; a complete one adds one pending claim for this item with the
        form's fields, closes the dialog and empties the form. `id` and `now`
        are the clock's id and timestamp. */
    method HandleClaimSubmit(store: ItemsProvider, item: FoundItem, id: string, now: int)
      returns (submitted: bool)
      modifies this, store
      ensures submitted <==> ClaimComplete(old(claimData))
      ensures !submitted ==> unchanged(this) && unchanged(store)
      ensures submitted ==>
        && store.claims == [ClaimRequest(id, item.id, old(claimData).claimantName, old(claimData).claimantEmail,
                                         old(claimData).claimantPhone, old(claimData).description,
                                         ClaimStatus.Pending, now)] + old(store.claims)
        && store.items == old(store.items)
        && claimData == EmptyClaimData && !open
      ensures UniqueClaimIds(old(store.claims)) && (forall c :: c in old(store.claims) ==> c.id != id)
              ==> UniqueClaimIds(store.claims)
    {
      if !ClaimComplete(claimData) {
        return false;
      }
      var d := claimData;
      store.AddClaim(ClaimDraft(item.id, d.claimantName, d.claimantEmail, d.claimantPhone, d.description),
                     id, now);
      open := false;
      claimData := EmptyClaimData;
      return true;
    }
  }
}
