/** The claims-portal store: a claim list of its own, unrelated to the
    items/claims store, whose ids are `CLM-2026-` and a sequence number. */
module ClaimsContext {
  import opened Wrappers
  import opened Text
  import Seqs

  datatype PortalStatus = Pending | Verified | Rejected

  /** The status as the source spells it. */
  function PortalStatusName(s: PortalStatus): string {
    match s
    case Pending => "pending"
    case Verified => "verified"
    case Rejected => "rejected"
  }

  datatype Claim = Claim(
    id: string,
    itemName: string,
    description: string,
    dateLost: string,
    contactEmail: string,
    submittedDate: string,
    status: PortalStatus,
    adminNotes: Option<string>)

  const IdPrefix: string := "CLM-2026-"

  /** The id `submitClaim` gives the `n`-th claim. */
  function ClaimId(n: nat): string {
    IdPrefix + PadStart(Decimal(n), 3, '0')
  }

  /** A claim id is the prefix, then `n` in decimal left-padded with zeros
      to three digits and never cut: its digits read back as `n`. */
  lemma ClaimIdFormat(n: nat)
    ensures |ClaimId(n)| == |IdPrefix| + (if |Decimal(n)| >= 3 then |Decimal(n)| else 3)
    ensures ClaimId(n)[..|IdPrefix|] == IdPrefix
    ensures AllDigits(ClaimId(n)[|IdPrefix|..]) && DigitsValue(ClaimId(n)[|IdPrefix|..]) == n
    ensures n < 1000 ==> |ClaimId(n)| == |IdPrefix| + 3
  {
    PaddedDecimalValue(n, 3);
    DecimalAtMostThree(n);
    assert ClaimId(n)[|IdPrefix|..] == PadStart(Decimal(n), 3, '0');
  }

  lemma {:induction false} DecimalAtMostThree(n: nat)
    ensures n < 1000 ==> |Decimal(n)| <= 3
  {
    if 100 <= n < 1000 {
      DecimalAtMostTwo(n / 10);
    }
  }

  lemma DecimalAtMostTwo(n: nat)
    requires n < 100
    ensures |Decimal(n)| <= 2
  {
  }

  /** Different sequence numbers never give the same id. */
  lemma ClaimIdInjective(a: nat, b: nat)
    requires ClaimId(a) == ClaimId(b)
    ensures a == b
  {
    ClaimIdFormat(a);
    ClaimIdFormat(b);
    assert ClaimId(a)[|IdPrefix|..] == ClaimId(b)[|IdPrefix|..];
  }

  /** Lower-casing an id keeps its digits, so ids that differ in number
      still differ after `toLowerCase`. */
  lemma LowerClaimIdInjective(a: nat, b: nat)
    requires Lower(ClaimId(a)) == Lower(ClaimId(b))
    ensures a == b
  {
    ClaimIdFormat(a);
    ClaimIdFormat(b);
    LowerKeepsDigits(ClaimId(a), ClaimId(b), |IdPrefix|);
    ClaimIdInjective(a, b);
  }

  /** Two strings of one length with a common head and all-digit tails are
      equal once their lower-case forms are. */
  lemma LowerKeepsDigits(x: string, y: string, p: nat)
    requires p <= |x| == |y| && x[..p] == y[..p]
    requires AllDigits(x[p..]) && AllDigits(y[p..])
    requires Lower(x) == Lower(y)
    ensures x == y
  {
    forall k | 0 <= k < |x| ensures x[k] == y[k] {
      if k < p {
        assert x[..p][k] == y[..p][k];
      } else {
        assert IsDigit(x[p..][k - p]) && IsDigit(y[p..][k - p]);
        assert LowerChar(x[k]) == LowerChar(y[k]);
      }
    }
  }

  const BackpackClaimText: string := "Lost near the cafeteria, has a small tear on the side pocket and Nike logo on front"
  const CalculatorClaimText: string := "TI-84 Plus CE graphing calculator, blue color with my name \"Alex Chen\" written on the back"
  const BottleClaimText: string := "Red Hydro Flask with stickers from various bands"
  const VerifiedNote: string := "Ownership verified. Ready for pickup at Main Office."
  const RejectedNote: string := "Unable to verify ownership. Description does not match found item."

  /** The three claims the portal starts with, numbered 1 to 3. */
  function SeedClaims(): seq<Claim> {
    [ Claim("CLM-2026-001", "Blue Backpack",
        BackpackClaimText,
        "2026-01-15", "student@school.edu", "2026-01-16", Pending, Some("Pending verification")),
      Claim("CLM-2026-002", "TI-84 Calculator",
        CalculatorClaimText,
        "2026-01-10", "student@school.edu", "2026-01-11", Verified,
        Some(VerifiedNote)),
      Claim("CLM-2026-003", "Red Water Bottle",
        BottleClaimText,
        "2026-01-05", "student@school.edu", "2026-01-06", Rejected,
        Some(RejectedNote)) ]
  }

  /** `idOf` never gives two numbers the same id. */
  ghost predicate Injective(idOf: nat -> string) {
    forall a, b :: idOf(a) == idOf(b) ==> a == b
  }

  /** `id` is `idOf(k)` for some `k` in `1 .. n`. */
  ghost predicate NumberedIn(id: string, n: nat, idOf: nat -> string) {
    exists k :: 1 <= k <= n && id == idOf(k)
  }

  /** Some claim carries `id`. */
  ghost predicate IdUsed(claims: seq<Claim>, id: string) {
    exists i :: 0 <= i < |claims| && claims[i].id == id
  }

  /** Every id is `idOf(k)` for some `k` in `1 .. |claims|`. */
  ghost predicate IdsInRange(claims: seq<Claim>, idOf: nat -> string) {
    forall i :: 0 <= i < |claims| ==> NumberedIn(claims[i].id, |claims|, idOf)
  }

  /** Every number in `1 .. |claims|` is some claim's id. */
  ghost predicate NumbersUsed(claims: seq<Claim>, idOf: nat -> string) {
    forall k :: 1 <= k <= |claims| ==> IdUsed(claims, idOf(k))
  }

  ghost predicate DistinctIds(claims: seq<Claim>) {
    forall i, j :: 0 <= i < j < |claims| ==> claims[i].id != claims[j].id
  }

  /** The ids are `idOf(1)` .. `idOf(|claims|)`, each exactly once. */
  ghost predicate NumberedBy(claims: seq<Claim>, idOf: nat -> string) {
    IdsInRange(claims, idOf) && NumbersUsed(claims, idOf) && DistinctIds(claims)
  }

  /** The numbering invariant of the portal store. */
  ghost predicate WellNumbered(claims: seq<Claim>) {
    NumberedBy(claims, ClaimId)
  }

  lemma ClaimIdIsInjective()
    ensures Injective(ClaimId)
  {
    forall a: nat, b: nat | ClaimId(a) == ClaimId(b) ensures a == b {
      ClaimIdInjective(a, b);
    }
  }

  lemma SeedIds()
    ensures ClaimId(1) == "CLM-2026-001"
    ensures ClaimId(2) == "CLM-2026-002"
    ensures ClaimId(3) == "CLM-2026-003"
  {
    assert Decimal(1) == "1" && Decimal(2) == "2" && Decimal(3) == "3";
  }

  /** The seed claims carry ids 1, 2 and 3, each once. */
  lemma SeedWellNumbered()
    ensures WellNumbered(SeedClaims())
  {
    SeedIds();
    ClaimIdIsInjective();
    SeedNumberedBy(ClaimId);
  }

  /** The seed is numbered by any injective `idOf` that spells 1, 2 and 3
      as the seed does. */
  lemma SeedNumberedBy(idOf: nat -> string)
    requires Injective(idOf)
    requires idOf(1) == "CLM-2026-001" && idOf(2) == "CLM-2026-002" && idOf(3) == "CLM-2026-003"
    ensures NumberedBy(SeedClaims(), idOf)
  {
    var seed := SeedClaims();
    assert forall i :: 0 <= i < |seed| ==> seed[i].id == idOf(i + 1);
    AscendingNumbered(seed, idOf);
  }

  /** Claims whose `i`-th id is `idOf(i + 1)` are numbered `1 .. |claims|`. */
  lemma AscendingNumbered(claims: seq<Claim>, idOf: nat -> string)
    requires Injective(idOf)
    requires forall i :: 0 <= i < |claims| ==> claims[i].id == idOf(i + 1)
    ensures NumberedBy(claims, idOf)
  {
    AscendingInRange(claims, idOf);
    AscendingUsed(claims, idOf);
    AscendingDistinct(claims, idOf);
  }

  lemma AscendingInRange(claims: seq<Claim>, idOf: nat -> string)
    requires forall i :: 0 <= i < |claims| ==> claims[i].id == idOf(i + 1)
    ensures IdsInRange(claims, idOf)
  {
    forall i | 0 <= i < |claims| ensures NumberedIn(claims[i].id, |claims|, idOf) {
      var k: nat := i + 1;
      assert 1 <= k <= |claims| && claims[i].id == idOf(k);
    }
  }

  lemma AscendingUsed(claims: seq<Claim>, idOf: nat -> string)
    requires forall i :: 0 <= i < |claims| ==> claims[i].id == idOf(i + 1)
    ensures NumbersUsed(claims, idOf)
  {
    forall k | 1 <= k <= |claims| ensures IdUsed(claims, idOf(k)) {
      var i := k - 1;
      assert 0 <= i < |claims| && claims[i].id == idOf(k);
    }
  }

  lemma AscendingDistinct(claims: seq<Claim>, idOf: nat -> string)
    requires Injective(idOf)
    requires forall i :: 0 <= i < |claims| ==> claims[i].id == idOf(i + 1)
    ensures DistinctIds(claims)
  {
    forall i, j | 0 <= i < j < |claims| ensures claims[i].id != claims[j].id {
      var a: nat, b: nat := i + 1, j + 1;
      assert claims[i].id == idOf(a) && claims[j].id == idOf(b);
    }
  }

  /** Prepending the claim numbered `|claims| + 1` keeps the invariant. */
  lemma SubmitKeepsNumbering(claims: seq<Claim>, c: Claim)
    requires WellNumbered(claims)
    requires c.id == ClaimId(|claims| + 1)
    ensures WellNumbered([c] + claims)
  {
    ClaimIdIsInjective();
    PrependKeepsNumbering(claims, c, ClaimId);
  }

  lemma PrependKeepsNumbering(claims: seq<Claim>, c: Claim, idOf: nat -> string)
    requires Injective(idOf) && NumberedBy(claims, idOf)
    requires c.id == idOf(|claims| + 1)
    ensures NumberedBy([c] + claims, idOf)
  {
    PrependInRange(claims, c, idOf);
    PrependUsed(claims, c, idOf);
    PrependDistinct(claims, c, idOf);
  }

  lemma PrependInRange(claims: seq<Claim>, c: Claim, idOf: nat -> string)
    requires IdsInRange(claims, idOf)
    requires c.id == idOf(|claims| + 1)
    ensures IdsInRange([c] + claims, idOf)
  {
    var n := |claims|;
    var r := [c] + claims;
    forall i | 0 <= i < |r| ensures NumberedIn(r[i].id, |r|, idOf) {
      if i == 0 {
        assert r[0].id == idOf(n + 1);
      } else {
        var k := NumberOf(claims, idOf, i - 1);
        assert r[i].id == idOf(k);
      }
    }
  }

  lemma PrependUsed(claims: seq<Claim>, c: Claim, idOf: nat -> string)
    requires NumbersUsed(claims, idOf)
    requires c.id == idOf(|claims| + 1)
    ensures NumbersUsed([c] + claims, idOf)
  {
    var n := |claims|;
    var r := [c] + claims;
    forall k | 1 <= k <= |r| ensures IdUsed(r, idOf(k)) {
      if k == n + 1 {
        assert r[0].id == idOf(k);
      } else {
        var i := ClaimWith(claims, idOf(k));
        assert r[i + 1].id == idOf(k);
      }
    }
  }

  /** The number behind the `m`-th id of claims whose ids are in range. */
  lemma NumberOf(claims: seq<Claim>, idOf: nat -> string, m: int) returns (k: nat)
    requires IdsInRange(claims, idOf) && 0 <= m < |claims|
    ensures 1 <= k <= |claims| && claims[m].id == idOf(k)
  {
    assert NumberedIn(claims[m].id, |claims|, idOf);
    k :| 1 <= k <= |claims| && claims[m].id == idOf(k);
  }

  /** The position of a claim carrying a used id. */
  lemma ClaimWith(claims: seq<Claim>, id: string) returns (i: int)
    requires IdUsed(claims, id)
    ensures 0 <= i < |claims| && claims[i].id == id
  {
    i :| 0 <= i < |claims| && claims[i].id == id;
  }

  lemma PrependDistinct(claims: seq<Claim>, c: Claim, idOf: nat -> string)
    requires Injective(idOf) && IdsInRange(claims, idOf) && DistinctIds(claims)
    requires c.id == idOf(|claims| + 1)
    ensures DistinctIds([c] + claims)
  {
    var n := |claims|;
    var r := [c] + claims;
    forall i, j | 0 <= i < j < |r| ensures r[i].id != r[j].id {
      if i == 0 {
        var k := NumberOf(claims, idOf, j - 1);
        assert idOf(n + 1) != idOf(k);
      } else {
        assert r[i] == claims[i - 1] && r[j] == claims[j - 1];
      }
    }
  }

  /** `claim.id.toLowerCase() === q.toLowerCase()`. */
  predicate IdMatches(c: Claim, q: string) {
    Lower(c.id) == Lower(q)
  }

  /** `claim.contactEmail.toLowerCase() === e.toLowerCase()`. */
  predicate EmailMatches(c: Claim, e: string) {
    Lower(c.contactEmail) == Lower(e)
  }

  /** `getClaimsByEmail(e)`: the claims with that email, ignoring ASCII case,
      in store order (newest first). */
  function ClaimsByEmail(claims: seq<Claim>, e: string): (r: seq<Claim>)
    ensures forall c :: c in r <==> c in claims && EmailMatches(c, e)
    ensures forall c :: EmailMatches(c, e) ==> multiset(r)[c] == multiset(claims)[c]
    ensures Seqs.Subsequence(r, claims)
  {
    Seqs.Filter(claims, (c: Claim) => EmailMatches(c, e))
  }

  /** `i` is the first position whose claim satisfies `p`. */
  ghost predicate FirstIdMatch(claims: seq<Claim>, i: int, q: string) {
    0 <= i < |claims| && IdMatches(claims[i], q) && forall j :: 0 <= j < i ==> !IdMatches(claims[j], q)
  }

  ghost predicate FirstEmailMatch(claims: seq<Claim>, i: int, q: string) {
    0 <= i < |claims| && EmailMatches(claims[i], q) && forall j :: 0 <= j < i ==> !EmailMatches(claims[j], q)
  }

  ghost predicate FirstAt(claims: seq<Claim>, i: int, p: Claim -> bool) {
    0 <= i < |claims| && p(claims[i]) && forall j :: 0 <= j < i ==> !p(claims[j])
  }

  /** `getClaim(q)`: the first claim whose id equals `q` ignoring case; when
      there is none, the first claim whose email does; otherwise nothing. */
  function GetClaim(claims: seq<Claim>, q: string): (r: Option<Claim>)
    ensures (exists i :: 0 <= i < |claims| && IdMatches(claims[i], q)) ==>
      exists i :: FirstIdMatch(claims, i, q) && r == Some(claims[i])
    ensures (forall i :: 0 <= i < |claims| ==> !IdMatches(claims[i], q)) ==>
      && (r.None? <==> forall i :: 0 <= i < |claims| ==> !EmailMatches(claims[i], q))
      && (r.Some? ==> exists i :: FirstEmailMatch(claims, i, q) && r == Some(claims[i]))
  {
    match Seqs.FindIndex(claims, (c: Claim) => IdMatches(c, q))
    case Some(i) =>
      assert FirstIdMatch(claims, i, q);
      Some(claims[i])
    case None =>
      match Seqs.FindIndex(claims, (c: Claim) => EmailMatches(c, q))
      case Some(i) =>
        assert FirstEmailMatch(claims, i, q);
        Some(claims[i])
      case None => None
  }

  /** The email fallback of `getClaim` is the head of `getClaimsByEmail`,
      the most recent claim with that email. */
  lemma {:induction false} GetClaimFallsBackToNewestByEmail(claims: seq<Claim>, q: string)
    requires forall i :: 0 <= i < |claims| ==> !IdMatches(claims[i], q)
    ensures GetClaim(claims, q) == if ClaimsByEmail(claims, q) == [] then None
                                   else Some(ClaimsByEmail(claims, q)[0])
  {
    var p := (c: Claim) => EmailMatches(c, q);
    var byEmail := ClaimsByEmail(claims, q);
    match GetClaim(claims, q)
    case None =>
    case Some(g) =>
      var i :| FirstEmailMatch(claims, i, q) && g == claims[i];
      assert FirstAt(claims, i, p);
      FilterHeadIsFirst(claims, p, i);
  }

  lemma {:induction false} FilterHeadIsFirst(claims: seq<Claim>, p: Claim -> bool, i: int)
    requires FirstAt(claims, i, p)
    ensures Seqs.Filter(claims, p) != [] && Seqs.Filter(claims, p)[0] == claims[i]
  {
    if i > 0 {
      assert FirstAt(claims[1..], i - 1, p) by {
        forall j | 0 <= j < i - 1 ensures !p(claims[1..][j]) {
          assert claims[1..][j] == claims[j + 1];
        }
      }
      FilterHeadIsFirst(claims[1..], p, i - 1);
    }
  }

  /** In a well-numbered store, looking up an id the store handed out finds
      the claim carrying exactly that id. */
  lemma IssuedIdFindsItsClaim(claims: seq<Claim>, k: nat)
    requires WellNumbered(claims) && 1 <= k <= |claims|
    ensures GetClaim(claims, ClaimId(k)).Some?
    ensures GetClaim(claims, ClaimId(k)).value.id == ClaimId(k)
  {
    forall a: nat, b: nat | Lower(ClaimId(a)) == Lower(ClaimId(b)) ensures a == b {
      LowerClaimIdInjective(a, b);
    }
    LookupFindsNumber(claims, ClaimId, k);
  }

  lemma LookupFindsNumber(claims: seq<Claim>, idOf: nat -> string, k: nat)
    requires NumberedBy(claims, idOf) && 1 <= k <= |claims|
    requires forall a, b :: Lower(idOf(a)) == Lower(idOf(b)) ==> a == b
    ensures GetClaim(claims, idOf(k)).Some?
    ensures GetClaim(claims, idOf(k)).value.id == idOf(k)
  {
    var q := idOf(k);
    var i := ClaimWith(claims, q);
    assert IdMatches(claims[i], q);
    var j :| FirstIdMatch(claims, j, q) && GetClaim(claims, q) == Some(claims[j]);
    assert FirstIdMatch(claims, j, q);
    assert 0 <= j;
    assert j < |claims|;
    var m := NumberOf(claims, idOf, j);
    assert Lower(idOf(m)) == Lower(idOf(k));
  }

  /** The portal store; nothing ever removes a claim. */
  class ClaimsProvider {
    var claims: seq<Claim>

    constructor ()
      ensures claims == SeedClaims()
      ensures WellNumbered(claims)
    {
      claims := SeedClaims();
      SeedWellNumbered();
    }

    /** Prepends a pending claim numbered one past the current count and
        returns its id. `today` is the submission date the clock gives. */
    method SubmitClaim(itemName: string, description: string, dateLost: string,
                       contactEmail: string, today: string) returns (id: string)
      modifies this
      ensures id == ClaimId(|old(claims)| + 1)
      ensures claims == [Claim(id, itemName, description, dateLost, contactEmail, today,
                               Pending, None)] + old(claims)
      ensures WellNumbered(old(claims)) ==> WellNumbered(claims)
    {
      id := ClaimId(|claims| + 1);
      var c := Claim(id, itemName, description, dateLost, contactEmail, today, Pending, None);
      if WellNumbered(claims) {
        SubmitKeepsNumbering(claims, c);
      }
      claims := [c] + claims;
    }
  }
}
