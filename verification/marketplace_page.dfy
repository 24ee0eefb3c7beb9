/** The pure logic of the marketplace page: listings derived from the demo credits,
    the four-part listing filter, and the shopping cart. */
module MarketplacePage {
  import opened Types
  import opened Outcomes
  import Numerals

  // ---------------------------------------------------------------------------
  // Derived listings
  // ---------------------------------------------------------------------------

  /** The price shown for a credit: its own price, or 25 HBAR when it has none or
      it is zero (a falsy number). */
  function ListingPrice(credit: EnvironmentalCredit): (price: real)
    ensures credit.price.Some? && credit.price.value != 0.0 ==> price == credit.price.value
    ensures credit.price.None? || credit.price.value == 0.0 ==> price == 25.0
  {
    if credit.price.Some? && credit.price.value != 0.0 then credit.price.value else 25.0
  }

  /** The listing shown for the credit at position `index` of the demo list. */
  function DeriveListing(credit: EnvironmentalCredit, index: nat, now: int): (listing: MarketplaceListing)
    ensures listing.id == "listing-" + Numerals.Decimal(index + 1)
    ensures listing.creditId == credit.id && listing.sellerId == credit.owner
    ensures listing.price == ListingPrice(credit) && listing.currency == HBAR
    ensures listing.quantity == credit.amount
    // the minimum purchase is a tenth of the amount, rounded down
    ensures listing.minPurchase * 10 <= credit.amount < listing.minPurchase * 10 + 10
    ensures listing.description == credit.project && listing.active
  {
    MarketplaceListing("listing-" + Numerals.Decimal(index + 1), credit.id, credit.owner,
                       ListingPrice(credit), HBAR, credit.amount, credit.amount / 10,
                       credit.project, true, now, None)
  }

  /** One listing per credit, in order; `now` stands for the creation time. */
  function DeriveListings(credits: seq<EnvironmentalCredit>, now: int): (listings: seq<MarketplaceListing>)
    ensures |listings| == |credits|
    ensures forall i | 0 <= i < |credits| :: listings[i] == DeriveListing(credits[i], i, now)
  {
    seq(|credits|, i requires 0 <= i < |credits| => DeriveListing(credits[i], i, now))
  }

  /** Derived listing ids are pairwise distinct. */
  lemma DerivedIdsDistinct(credits: seq<EnvironmentalCredit>, now: int, i: nat, j: nat)
    requires i < j < |credits|
    ensures DeriveListings(credits, now)[i].id != DeriveListings(credits, now)[j].id
  {
    var a, b := Numerals.Decimal(i + 1), Numerals.Decimal(j + 1);
    Numerals.RenderInjective(i + 1, j + 1, 10);
    assert ("listing-" + a)[8..] == a && ("listing-" + b)[8..] == b;
  }

  function DemoCredit(id: string, kind: CreditType, amount: int, unit: string, zoneId: string,
                      methodology: string, tokenId: string, price: real, owner: string, project: string)
    : EnvironmentalCredit
  {
    EnvironmentalCredit(id, kind, amount, unit, zoneId, 2024, methodology, CreditVerified,
                        Some(tokenId), Some(price), owner, project)
  }

  /** The four demo credits the page lists. */
  const DemoCredits: seq<EnvironmentalCredit> := [
    DemoCredit("credit-1", Carbon, 100, "tCO2e", "zone-1", "Verra VCS", "0.0.123456", 25.0,
               "0.0.1234", "Amazon Rainforest Conservation"),
    DemoCredit("credit-2", Biodiversity, 50, "credits", "zone-2", "IUCN Red List", "0.0.123457", 45.0,
               "0.0.5678", "Coral Reef Protection"),
    DemoCredit("credit-3", Water, 200, "ML saved", "zone-3", "Alliance for Water Stewardship",
               "0.0.123458", 30.0, "0.0.9012", "Watershed Restoration"),
    DemoCredit("credit-4", Soil, 75, "hectares", "zone-4", "Regenerative Organic Certified",
               "0.0.123459", 20.0, "0.0.3456", "Regenerative Agriculture")
  ]

  /** The demo listings sell 100, 50, 200 and 75 credits at 25, 45, 30 and 20 HBAR,
      with minimum purchases 10, 5, 20 and 7. */
  lemma DemoListings(now: int)
    ensures var l := DeriveListings(DemoCredits, now);
      && |l| == 4
      && l[0].price == 25.0 && l[1].price == 45.0 && l[2].price == 30.0 && l[3].price == 20.0
      && l[0].minPurchase == 10 && l[1].minPurchase == 5 && l[2].minPurchase == 20 && l[3].minPurchase == 7
      && l[0].quantity == 100 && l[3].quantity == 75
  {
  }

  // ---------------------------------------------------------------------------
  // Filtering
  // ---------------------------------------------------------------------------

  /** ASCII lower-casing of one character. */
  function LowerChar(c: char): char
  {
    if 'A' <= c <= 'Z' then (c as int + 32) as char else c
  }

  function Lower(s: string): (r: string)
    ensures |r| == |s| && forall i | 0 <= i < |s| :: r[i] == LowerChar(s[i])
  {
    seq(|s|, i requires 0 <= i < |s| => LowerChar(s[i]))
  }

  /** `needle` occurs in `haystack` starting at `i`. */
  predicate OccursAt(haystack: string, needle: string, i: int)
  {
    0 <= i && i + |needle| <= |haystack| && haystack[i..i + |needle|] == needle
  }

  /** `String.prototype.includes`: `needle` occurs somewhere in `haystack`. */
  function Includes(haystack: string, needle: string): (b: bool)
    ensures b <==> exists i :: OccursAt(haystack, needle, i)
    decreases |haystack|
  {
    if |needle| > |haystack| then
      assert forall i :: !OccursAt(haystack, needle, i);
      false
    else if haystack[..|needle|] == needle then
      assert OccursAt(haystack, needle, 0);
      true
    else
      var rest := Includes(haystack[1..], needle);
      ShiftOccurrence(haystack, needle);
      rest
  }

  /** An occurrence in `haystack` past position 0 is an occurrence in its tail. */
  lemma ShiftOccurrence(haystack: string, needle: string)
    requires |haystack| > 0 && !OccursAt(haystack, needle, 0)
    ensures (exists i :: OccursAt(haystack, needle, i)) <==> (exists i :: OccursAt(haystack[1..], needle, i))
  {
    if exists i :: OccursAt(haystack, needle, i) {
      var i :| OccursAt(haystack, needle, i);
      assert haystack[1..][i - 1..i - 1 + |needle|] == haystack[i..i + |needle|];
      assert OccursAt(haystack[1..], needle, i - 1);
    }
    if exists i :: OccursAt(haystack[1..], needle, i) {
      var i :| OccursAt(haystack[1..], needle, i);
      assert haystack[i + 1..i + 1 + |needle|] == haystack[1..][i..i + |needle|];
      assert OccursAt(haystack, needle, i + 1);
    }
  }

  /** The credit with the given id, the first one when there are several. */
  function FindCredit(credits: seq<EnvironmentalCredit>, id: string): (r: Option<EnvironmentalCredit>)
    ensures r.None? <==> forall c | c in credits :: c.id != id
    ensures r.Some? ==> r.value in credits && r.value.id == id
    ensures r.Some? ==> exists k | 0 <= k < |credits| :: credits[k] == r.value && forall j | 0 <= j < k :: credits[j].id != id
  {
    if |credits| == 0 then None
    else if credits[0].id == id then Some(credits[0])
    else
      var r := FindCredit(credits[1..], id);
      FirstInTail(credits, id, r);
      r
  }

  /** A first occurrence in the tail, after a head with another id, is a first
      occurrence in the whole sequence. */
  lemma FirstInTail(credits: seq<EnvironmentalCredit>, id: string, r: Option<EnvironmentalCredit>)
    requires |credits| > 0 && credits[0].id != id
    requires r.Some? ==> exists k | 0 <= k < |credits| - 1 ::
      credits[1..][k] == r.value && forall j | 0 <= j < k :: credits[1..][j].id != id
    ensures r.Some? ==> exists k | 0 <= k < |credits| ::
      credits[k] == r.value && forall j | 0 <= j < k :: credits[j].id != id
  {
    if r.Some? {
      var k :| 0 <= k < |credits| - 1 && credits[1..][k] == r.value && forall j | 0 <= j < k :: credits[1..][j].id != id;
      assert credits[k + 1] == r.value;
      forall j | 0 <= j < k + 1
        ensures credits[j].id != id
      {
        if j > 0 {
          assert credits[j] == credits[1..][j - 1];
        }
      }
    }
  }

  /** The page's filter settings: a credit type name or "all", a search text and an
      inclusive price range. */
  datatype Filter = Filter(selectedType: string, query: string, low: real, high: real)

  const InitialFilter := Filter("all", "", 0.0, 100.0)

  predicate TypeMatches(f: Filter, credit: EnvironmentalCredit)
  {
    f.selectedType == "all" || CreditTypeName(credit.kind) == f.selectedType
  }

  /** An empty search text matches everything; otherwise it must occur in the
      description, ignoring case. */
  predicate QueryMatches(f: Filter, listing: MarketplaceListing)
  {
    f.query == "" || Includes(Lower(listing.description), Lower(f.query))
  }

  predicate PriceMatches(f: Filter, listing: MarketplaceListing)
  {
    f.low <= listing.price <= f.high
  }

  /** The four conditions of the filter, checked in the source's order. */
  predicate Keep(f: Filter, credits: seq<EnvironmentalCredit>, listing: MarketplaceListing)
  {
    match FindCredit(credits, listing.creditId)
    case None => false
    case Some(credit) => TypeMatches(f, credit) && QueryMatches(f, listing) && PriceMatches(f, listing)
  }

  /** The listings the page shows: those the filter keeps, in their original order. */
  function FilterListings(listings: seq<MarketplaceListing>, credits: seq<EnvironmentalCredit>, f: Filter)
    : (shown: seq<MarketplaceListing>)
    ensures |shown| <= |listings|
    ensures forall l :: l in shown <==> l in listings && Keep(f, credits, l)
    ensures forall l :: multiset(shown)[l] == if Keep(f, credits, l) then multiset(listings)[l] else 0
  {
    if |listings| == 0 then []
    else
      var rest := FilterListings(listings[1..], credits, f);
      assert listings == [listings[0]] + listings[1..];
      if Keep(f, credits, listings[0]) then [listings[0]] + rest else rest
  }

  /** `a` is `b` with some elements left out, the rest in order. */
  predicate IsSubsequence<T(==)>(a: seq<T>, b: seq<T>)
    decreases |b|
  {
    if |a| == 0 then true
    else if |b| == 0 then false
    else if a[0] == b[0] then IsSubsequence(a[1..], b[1..])
    else IsSubsequence(a, b[1..])
  }

  /** Filtering keeps the listings' relative order. */
  lemma {:induction false} FilterPreservesOrder(listings: seq<MarketplaceListing>,
                                                credits: seq<EnvironmentalCredit>, f: Filter)
    ensures IsSubsequence(FilterListings(listings, credits, f), listings)
  {
    if |listings| > 0 {
      FilterPreservesOrder(listings[1..], credits, f);
      var rest := FilterListings(listings[1..], credits, f);
      if Keep(f, credits, listings[0]) {
        assert ([listings[0]] + rest)[1..] == rest;
      } else if |rest| > 0 {
        SubsequenceOfTail(rest, listings);
      }
    }
  }

  /** A subsequence of the tail is a subsequence of the whole. */
  lemma {:induction false} SubsequenceOfTail<T>(a: seq<T>, b: seq<T>)
    requires |b| > 0 && IsSubsequence(a, b[1..])
    ensures IsSubsequence(a, b)
    decreases |b|, |a|
  {
    if |a| > 0 && a[0] == b[0] && |b| > 1 {
      if a[0] == b[1] {
        assert IsSubsequence(a[1..], b[2..]);
        SubsequenceOfTail(a[1..], b[1..]);
      } else {
        SubsequenceOfTail(a, b[1..]);
        assert IsSubsequence(a, b[1..]);
        SubsequenceDropHead(a, b[1..]);
      }
    }
  }

  /** Dropping the first element of a subsequence keeps it a subsequence. */
  lemma {:induction false} SubsequenceDropHead<T>(a: seq<T>, b: seq<T>)
    requires |a| > 0 && IsSubsequence(a, b)
    ensures IsSubsequence(a[1..], b)
    decreases |b|, |a|
  {
    if |b| > 0 {
      if a[0] == b[0] {
        if |a| > 1 {
          SubsequenceDropHead(a[1..], b[1..]);
          assert a[1..][1..] == a[2..];
          SubsequenceOfTail(a[1..], b);
        }
      } else {
        SubsequenceDropHead(a, b[1..]);
        if |a| > 1 {
          SubsequenceOfTail(a[1..], b);
        }
      }
    }
  }

  /** The "all" setting, an empty search and an unbounded range show every listing
      that has a credit. */
  lemma NeutralFilterShowsAll(listings: seq<MarketplaceListing>, credits: seq<EnvironmentalCredit>,
                              low: real, high: real)
    requires forall l | l in listings :: low <= l.price <= high
    requires forall l | l in listings :: exists c | c in credits :: c.id == l.creditId
    ensures FilterListings(listings, credits, Filter("all", "", low, high)) == listings
  {
    if |listings| > 0 {
      var f := Filter("all", "", low, high);
      assert listings[0] in listings;
      assert Keep(f, credits, listings[0]);
      assert forall l | l in listings[1..] :: l in listings;
      NeutralFilterShowsAll(listings[1..], credits, low, high);
      assert FilterListings(listings, credits, f) == [listings[0]] + FilterListings(listings[1..], credits, f);
    }
  }

  /** An inverted price range shows nothing. */
  lemma InvertedRangeShowsNothing(listings: seq<MarketplaceListing>, credits: seq<EnvironmentalCredit>, f: Filter)
    requires f.low > f.high
    ensures FilterListings(listings, credits, f) == []
  {
  }

  /** Searching for a word of the demo descriptions, in any case, finds its listing. */
  lemma SearchIgnoresCase()
    ensures Includes(Lower("Coral Reef Protection"), Lower("REEF"))
  {
    assert OccursAt(Lower("Coral Reef Protection"), Lower("REEF"), 6);
  }

  // ---------------------------------------------------------------------------
  // Cart
  // ---------------------------------------------------------------------------

  /** Adds a listing id to the cart; the same listing may be added more than once. */
  function AddToCart(cart: seq<string>, listingId: string): (after: seq<string>)
    ensures |after| == |cart| + 1 && after[..|cart|] == cart && after[|cart|] == listingId
  {
    cart + [listingId]
  }

  /** Each purchase adds exactly one entry for its listing and leaves other counts alone. */
  lemma AddToCartCounts(cart: seq<string>, listingId: string, other: string)
    ensures multiset(AddToCart(cart, listingId))[listingId] == multiset(cart)[listingId] + 1
    ensures other != listingId ==> multiset(AddToCart(cart, listingId))[other] == multiset(cart)[other]
  {
    assert AddToCart(cart, listingId) == cart + [listingId];
  }
}
