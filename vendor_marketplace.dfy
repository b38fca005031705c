/**
 * The vendor marketplace's search (pages/VendorMarketplace.tsx): a text
 * search over name and location, a category button and an eco-friendly
 * checkbox, combined by conjunction; and the price-level label.
 */
module VendorMarketplace {
  import opened Strings
  import opened Types
  import opened Seqs

  /** The search box: the lower-cased term occurs in the lower-cased name or location. */
  predicate MatchesSearch(v: Vendor, term: string) {
    Contains(ToLower(v.name), ToLower(term)) || Contains(ToLower(v.location), ToLower(term))
  }

  /** The category buttons: "All", or one category's string value. */
  predicate MatchesCategory(v: Vendor, selected: string) {
    selected == "All" || CategoryName(v.category) == selected
  }

  /** The filter predicate of `filteredVendors`. */
  predicate Matches(v: Vendor, term: string, selected: string, onlyEco: bool) {
    MatchesSearch(v, term) && MatchesCategory(v, selected) && (!onlyEco || v.isEcoFriendly)
  }

  /** `filteredVendors`: the matching vendors, in marketplace order. */
  function FilteredVendors(vendors: seq<Vendor>, term: string, selected: string, onlyEco: bool)
    : (r: seq<Vendor>)
    ensures SubsequenceOf(r, vendors)
    ensures forall v :: v in r <==> v in vendors && Matches(v, term, selected, onlyEco)
    ensures onlyEco ==> forall i :: 0 <= i < |r| ==> r[i].isEcoFriendly
    ensures forall v :: multiset(r)[v] == if Matches(v, term, selected, onlyEco) then multiset(vendors)[v] else 0
  {
    FilterCounts((v: Vendor) => Matches(v, term, selected, onlyEco), vendors);
    Filter((v: Vendor) => Matches(v, term, selected, onlyEco), vendors)
  }

  /** The empty search term occurs in every string. */
  lemma EmptyTermMatches(v: Vendor)
    ensures MatchesSearch(v, "")
  {
    assert OccursAt(ToLower(v.name), ToLower(""), 0);
  }

  /** With an empty term, "All" and the eco box off, the whole list is shown. */
  lemma NoFilterShowsAll(vendors: seq<Vendor>)
    ensures FilteredVendors(vendors, "", "All", false) == vendors
  {
    forall v | v in vendors
      ensures Matches(v, "", "All", false)
    {
      EmptyTermMatches(v);
    }
    FilterKeepsAll((v: Vendor) => Matches(v, "", "All", false), vendors);
  }

  /** Choosing a category's button shows only vendors of that category. */
  lemma CategoryButtonSelectsCategory(vendors: seq<Vendor>, term: string, c: VendorCategory, onlyEco: bool)
    ensures forall v :: v in FilteredVendors(vendors, term, CategoryName(c), onlyEco) ==> v.category == c
  {
    forall v | v in FilteredVendors(vendors, term, CategoryName(c), onlyEco)
      ensures v.category == c
    {
      assert CategoryName(v.category) == CategoryName(c);
      assert CategoryName(v.category)[0] == CategoryName(c)[0];
    }
  }

  /** Lower-casing twice is lower-casing once. */
  lemma ToLowerIdempotent(s: string)
    ensures ToLower(ToLower(s)) == ToLower(s)
  {
  }

  /** The search ignores the case of the term: typing it in capitals finds the same vendors. */
  lemma SearchIgnoresTermCase(vendors: seq<Vendor>, term: string, selected: string, onlyEco: bool)
    ensures FilteredVendors(vendors, ToLower(term), selected, onlyEco)
         == FilteredVendors(vendors, term, selected, onlyEco)
  {
    ToLowerIdempotent(term);
    FilterCongruent((v: Vendor) => Matches(v, ToLower(term), selected, onlyEco),
                    (v: Vendor) => Matches(v, term, selected, onlyEco), vendors);
  }

  /** The label under each card: `['Budget', 'Standard', 'Premium'][priceLevel - 1]`. */
  function PriceLabel(level: PriceLevel): (s: string)
    ensures s == "Budget" <==> level == 1
    ensures s == "Standard" <==> level == 2
    ensures s == "Premium" <==> level == 3
  {
    ["Budget", "Standard", "Premium"][level - 1]
  }
}
