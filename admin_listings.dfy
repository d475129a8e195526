/**
 * The public page of admin-curated listings: the same three-criterion query
 * and city facet as the browse page, without the address-bar mirror, and a
 * result count whose noun agrees with the number.
 */
module AdminListings {
  import opened Wrappers
  import opened Text
  import opened Listings

  /** The noun after the count: singular for exactly one result. */
  function ResultNoun(n: nat): string {
    if n == 1 then "business" else "businesses"
  }

  /** The results line, such as "1 business found" or "12 businesses found". */
  function ResultsLabel(n: nat): string {
    NatToString(n) + " " + ResultNoun(n) + " found"
  }

  /**
   * The label leads with the count in decimal, which reads back as the count,
   * followed by the noun (singular exactly for one, by `SingularOnlyForOne`).
   */
  lemma ResultsLabelSpec(n: nat)
    ensures var digits := NatToString(n);
      && ResultsLabel(n)[..|digits|] == digits
      && ParseDecimal(digits) == n
      && ResultsLabel(n)[|digits|..] == " " + ResultNoun(n) + " found"
  {
    NatToStringRoundTrip(n);
    var digits := NatToString(n);
    var tail := " " + ResultNoun(n) + " found";
    var line := ResultsLabel(n);
    assert line == digits + tail;
    assert line[..|digits|] == digits;
    assert line[|digits|..] == tail;
  }

  /** The singular is used for one result only. */
  lemma SingularOnlyForOne(n: nat)
    ensures ResultNoun(n) == "business" <==> n == 1
  {
    if n != 1 {
      assert |ResultNoun(n)| == 10;
    }
  }

  class AdminListingsPage {
    var businesses: seq<Listing>
    var searchTerm: string
    var selectedCategory: string
    var selectedCity: string
    var loading: bool
    var selectedBusiness: Option<Listing>

    function CurrentCriteria(): Criteria
      reads this
    {
      Criteria(searchTerm, selectedCategory, selectedCity)
    }

    /** The listings on screen. */
    function FilteredBusinesses(): seq<Listing>
      reads this
    {
      ApplyCriteria(businesses, CurrentCriteria())
    }

    /** The options of the city drop-down. */
    function AvailableCities(): seq<string>
      reads this
    {
      Listings.AvailableCities(businesses)
    }

    /** "Clear Filters" is offered exactly while some criterion is set. */
    predicate HasActiveFilters()
      reads this
    {
      searchTerm != "" || selectedCategory != "" || selectedCity != ""
    }

    /** The results line for what is on screen. */
    function Label(): string
      reads this
    {
      ResultsLabel(|FilteredBusinesses()|)
    }

    constructor ()
      ensures businesses == [] && CurrentCriteria() == NoCriteria && loading
      ensures selectedBusiness == None
    {
      businesses := [];
      searchTerm := "";
      selectedCategory := "";
      selectedCity := "";
      loading := true;
      selectedBusiness := None;
    }

    /** `fetchBusinesses`: a failed request keeps the old list; either way loading ends. */
    method FetchBusinesses(response: Option<seq<Listing>>)
      modifies this`businesses, this`loading
      ensures businesses == (if response.Some? then response.value else old(businesses))
      ensures !loading
    {
      if response.Some? {
        businesses := response.value;
      }
      loading := false;
    }

    method HandleSearchChange(value: string)
      modifies this`searchTerm
      ensures CurrentCriteria() == old(CurrentCriteria()).(searchTerm := value)
    {
      searchTerm := value;
    }

    method HandleCategoryChange(value: string)
      modifies this`selectedCategory
      ensures CurrentCriteria() == old(CurrentCriteria()).(category := value)
    {
      selectedCategory := value;
    }

    method HandleCityChange(value: string)
      modifies this`selectedCity
      ensures CurrentCriteria() == old(CurrentCriteria()).(city := value)
    {
      selectedCity := value;
    }

    /** `handleClearFilters`: every criterion unset, after which the full list is shown. */
    method HandleClearFilters()
      modifies this`searchTerm, this`selectedCategory, this`selectedCity
      ensures CurrentCriteria() == NoCriteria && !HasActiveFilters()
      ensures FilteredBusinesses() == businesses
    {
      searchTerm := "";
      selectedCategory := "";
      selectedCity := "";
      ApplyNoCriteria(businesses);
    }

    method HandleBusinessClick(b: Listing)
      modifies this`selectedBusiness
      ensures selectedBusiness == Some(b)
    {
      selectedBusiness := Some(b);
    }

    method HandleCloseModal()
      modifies this`selectedBusiness
      ensures selectedBusiness == None
    {
      selectedBusiness := None;
    }
  }
}
