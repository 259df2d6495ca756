/** The claims portal page: the lost-item claim form, which submits to the
    portal store and shows the issued claim id, and the status check, which
    looks claims up by email or by id. */
module ClaimsPage {
  import opened Wrappers
  import opened Text
  import opened ClaimsContext

  const FillAllFields: string := "Please fill in all fields"
  const InvalidEmail: string := "Please enter a valid email address"

  /** Why `handleSubmitClaim` refuses these field values, if it does: a
      blank name, description or email or an empty date first, then an
      email without '@'. */
  function SubmitRefusal(itemName: string, description: string, dateLost: string,
                         contactEmail: string): (r: Option<string>)
    ensures r.None? <==> !IsBlank(itemName) && !IsBlank(description) && dateLost != ""
                         && '@' in contactEmail
    ensures r == Some(InvalidEmail) <==> !IsBlank(itemName) && !IsBlank(description)
                                         && dateLost != "" && !IsBlank(contactEmail)
                                         && '@' !in contactEmail
  {
    if IsBlank(itemName) || IsBlank(description) || dateLost == "" || IsBlank(contactEmail) then
      Some(FillAllFields)
    else if !HasChar(contactEmail, '@') then
      Some(InvalidEmail)
    else
      None
  }

  /** A string holding a character other than whitespace is not blank. */
  lemma NotBlankAt(s: string, i: int)
    requires 0 <= i < |s| && !IsSpace(s[i])
    ensures !IsBlank(s)
  {
  }

  const StatusVerified: string := "verified"
  const StatusPending: string := "pending"
  const StatusRejected: string := "rejected"

  /** `getStatusText`: the label shown for a status; a status outside the
      three known ones is shown as it is. */
  function GetStatusText(status: string): (r: string)
    ensures status != StatusVerified && status != StatusPending && status != StatusRejected ==>
      r == status
  {
    if status == StatusVerified then "Verified - Ready for Pickup"
    else if status == StatusPending then "Pending Review"
    else if status == StatusRejected then "Unable to Verify"
    else status
  }

  /** Every status a portal claim can have gets a label of its own, and none
      of them is shown under its raw name. */
  lemma StatusTextDistinguishes(a: PortalStatus, b: PortalStatus)
    ensures GetStatusText(PortalStatusName(a)) == GetStatusText(PortalStatusName(b)) <==> a == b
    ensures GetStatusText(PortalStatusName(a)) != PortalStatusName(a)
  {
    match a
    case Pending =>
    case Verified =>
    case Rejected =>
  }

  const EnterQuery: string := "Please enter a claim ID or email"
  const NoClaimsForEmail: string := "No claims found for this email"
  const NoClaimWithId: string := "No claim found with this ID"

  /** What `handleCheckStatus` arrives at: a refusal, a toast saying nothing
      was found, or the claims to list. */
  datatype StatusLookup = Refused(message: string) | NotFound(message: string) | Found(results: seq<Claim>)

  /** A query with '@' is an email: every claim with that email, ignoring
      case, newest first; none of them is a miss. */
  function LookupByEmail(claims: seq<Claim>, q: string): (r: StatusLookup)
    ensures !r.Refused?
    ensures r.NotFound? <==> forall c :: c in claims ==> !EmailMatches(c, q)
    ensures r.Found? ==> r.results != [] && forall c :: c in r.results <==> c in claims && EmailMatches(c, q)
  {
    var results := ClaimsByEmail(claims, q);
    if |results| == 0 then NotFound(NoClaimsForEmail) else Found(results)
  }

  /** Any other query is an id, looked up by `getClaim` with its email
      fallback: one claim or a miss. */
  function LookupById(claims: seq<Claim>, q: string): (r: StatusLookup)
    ensures !r.Refused?
    ensures r.NotFound? <==> forall i :: 0 <= i < |claims| ==> !IdMatches(claims[i], q) && !EmailMatches(claims[i], q)
    ensures r.Found? ==> |r.results| == 1 && r.results[0] in claims
    ensures r.Found? ==> IdMatches(r.results[0], q) || EmailMatches(r.results[0], q)
    ensures r.Found? ==> GetClaim(claims, q) == Some(r.results[0])
  {
    match GetClaim(claims, q)
    case None => NotFound(NoClaimWithId)
    case Some(c) => Found([c])
  }

  /** The outcome of checking `q` against the portal's claims: a blank query
      is refused, a query with '@' goes by email and any other by id. */
  function CheckStatus(claims: seq<Claim>, q: string): (r: StatusLookup)
    ensures r.Refused? <==> IsBlank(q)
    ensures r.Found? ==> r.results != [] && forall c :: c in r.results ==> c in claims
    ensures !IsBlank(q) && '@' in q ==> r == LookupByEmail(claims, q)
    ensures !IsBlank(q) && '@' !in q ==> r == LookupById(claims, q)
  {
    if IsBlank(q) then Refused(EnterQuery)
    else if HasChar(q, '@') then LookupByEmail(claims, q)
    else LookupById(claims, q)
  }

  /** An id the portal issued has no '@' and is not blank, so checking it
      takes the id path and lists exactly the claim carrying that id. */
  lemma IssuedIdIsFound(claims: seq<Claim>, k: nat)
    requires WellNumbered(claims) && 1 <= k <= |claims|
    ensures CheckStatus(claims, ClaimId(k)).Found?
    ensures |CheckStatus(claims, ClaimId(k)).results| == 1
    ensures CheckStatus(claims, ClaimId(k)).results[0].id == ClaimId(k)
  {
    IdIsIdQuery(k);
    IssuedIdFindsItsClaim(claims, k);
  }

  /** A claim id is neither blank nor contains '@'. */
  lemma IdIsIdQuery(k: nat)
    ensures !IsBlank(ClaimId(k)) && '@' !in ClaimId(k)
  {
    var q := ClaimId(k);
    assert q[0] == IdPrefix[0];
    NotBlankAt(q, 0);
    IdHasNoAt(k);
  }

  lemma IdHasNoAt(k: nat)
    ensures '@' !in ClaimId(k)
  {
    var digits := PadStart(Decimal(k), 3, '0');
    PaddedDecimalValue(k, 3);
    assert '@' !in IdPrefix;
    assert '@' !in digits by {
      forall i | 0 <= i < |digits| ensures digits[i] != '@' {
        assert IsDigit(digits[i]);
      }
    }
    assert ClaimId(k) == IdPrefix + digits;
  }

  /** The page's state: the four claim fields, the search box and what it
      shows, and the claim code shown after a submission. */
  class ClaimsPageState {
    var itemName: string
    var description: string
    var dateLost: string
    var contactEmail: string
    var searchQuery: string
    var searchResults: seq<Claim>
    var showResults: bool
    var showClaimCode: bool
    var newClaimId: string

    constructor ()
      ensures itemName == "" && description == "" && dateLost == "" && contactEmail == ""
      ensures searchQuery == "" && searchResults == [] && !showResults
      ensures !showClaimCode && newClaimId == ""
    {
      itemName, description, dateLost, contactEmail := "", "", "", "";
      searchQuery, searchResults, showResults := "", [], false;
      showClaimCode, newClaimId := false, "";
    }

    /** `handleSubmitClaim`: on refusal nothing changes; otherwise exactly
        one claim reaches the store, its id is shown and the four fields are
        cleared. `today` is the submission date. */
    method HandleSubmitClaim(store: ClaimsProvider, today: string) returns (refusal: Option<string>)
      modifies this, store
      ensures refusal == SubmitRefusal(old(itemName), old(description), old(dateLost), old(contactEmail))
      ensures refusal.Some? ==> unchanged(this) && unchanged(store)
      ensures refusal.None? ==>
        && store.claims == [Claim(ClaimId(|old(store.claims)| + 1), old(itemName), old(description),
                                  old(dateLost), old(contactEmail), today, Pending, None)]
                           + old(store.claims)
        && newClaimId == store.claims[0].id && showClaimCode
        && itemName == "" && description == "" && dateLost == "" && contactEmail == ""
        && searchQuery == old(searchQuery) && searchResults == old(searchResults)
        && showResults == old(showResults)
      ensures WellNumbered(old(store.claims)) ==> WellNumbered(store.claims)
    {
      refusal := SubmitRefusal(itemName, description, dateLost, contactEmail);
      if refusal.Some? {
        return;
      }
      var id := store.SubmitClaim(itemName, description, dateLost, contactEmail, today);
      newClaimId := id;
      showClaimCode := true;
      ResetClaimForm();
    }

    /** Clears the four claim fields and nothing else. */
    method ResetClaimForm()
      modifies this
      ensures itemName == "" && description == "" && dateLost == "" && contactEmail == ""
      ensures searchQuery == old(searchQuery) && searchResults == old(searchResults)
      ensures showResults == old(showResults)
      ensures showClaimCode == old(showClaimCode) && newClaimId == old(newClaimId)
    {
      itemName, description, dateLost, contactEmail := "", "", "", "";
    }

    /** `handleCheckStatus`: a refusal changes nothing, an empty lookup hides
        the results, a successful one lists them. */
    method HandleCheckStatus(store: ClaimsProvider) returns (r: StatusLookup)
      modifies this
      ensures r == CheckStatus(store.claims, old(searchQuery))
      ensures r.Refused? ==> unchanged(this)
      ensures r.NotFound? ==> !showResults && searchResults == old(searchResults)
      ensures r.Found? ==> showResults && searchResults == r.results
      ensures itemName == old(itemName) && description == old(description)
      ensures dateLost == old(dateLost) && contactEmail == old(contactEmail)
      ensures searchQuery == old(searchQuery)
      ensures showClaimCode == old(showClaimCode) && newClaimId == old(newClaimId)
    {
      r := CheckStatus(store.claims, searchQuery);
      match r
      case Refused(_) =>
      case NotFound(_) =>
        showResults := false;
      case Found(results) =>
        searchResults := results;
        showResults := true;
    }
  }
}
