/**
 * The public browse page: the fetched listings, the three filter criteria
 * mirrored into the address bar, the city facet, and the per-business phone
 * reveal behind the contact form.
 *
 * React effects are taken in their settled form: the filtered list and the
 * city facet are functions of the state, and after every handler the query
 * string equals the one `updateURL` writes for the current criteria.
 */
module Browse {
  import opened Wrappers
  import opened Listings
  import opened ContactGate

  /** `updateURL`: a query parameter for each criterion that is set, and no other. */
  function UrlParams(c: Criteria): map<string, string> {
    var withSearch := if c.searchTerm != "" then map["search" := c.searchTerm] else map[];
    var withCategory := if c.category != "" then withSearch["category" := c.category] else withSearch;
    if c.city != "" then withCategory["city" := c.city] else withCategory
  }

  /** `searchParams.get(key) || ""` */
  function Param(params: map<string, string>, key: string): string {
    if key in params then params[key] else ""
  }

  /** The criteria a page load takes from the address bar. */
  function CriteriaFromUrl(params: map<string, string>): Criteria {
    Criteria(Param(params, "search"), Param(params, "category"), Param(params, "city"))
  }

  /** Reloading the page at the address it wrote restores the same criteria. */
  lemma UrlRoundTrip(c: Criteria)
    ensures CriteriaFromUrl(UrlParams(c)) == c
  {
  }

  /**
   * The address the page writes after a load keeps exactly the recognised,
   * non-empty parameters of the address it was loaded from.
   */
  lemma UrlNormalises(params: map<string, string>)
    ensures forall k :: k in UrlParams(CriteriaFromUrl(params)) <==>
      k in params && k in {"search", "category", "city"} && params[k] != ""
    ensures forall k :: k in UrlParams(CriteriaFromUrl(params)) ==>
      UrlParams(CriteriaFromUrl(params))[k] == params[k]
  {
  }

  /** With no criteria set the address carries no query. */
  lemma UrlEmptyIffNoCriteria(c: Criteria)
    ensures UrlParams(c) == map[] <==> c == NoCriteria
  {
    if c.searchTerm != "" {
      assert "search" in UrlParams(c);
    } else if c.category != "" {
      assert "category" in UrlParams(c);
    } else if c.city != "" {
      assert "city" in UrlParams(c);
    }
  }

  class BrowsePage {
    var businesses: seq<Listing>
    var searchTerm: string
    var selectedCategory: string
    var selectedCity: string
    var loading: bool
    /** The listing whose rating modal is open (`selectedBusiness`). */
    var selectedBusiness: Option<Listing>
    /** The listing whose contact form is open (`showContactForm`). */
    var showContactForm: Option<Listing>
    /** Business id to the phone revealed for it. */
    var revealedPhones: map<string, string>
    var searchParams: map<string, string>

    function CurrentCriteria(): Criteria
      reads this
    {
      Criteria(searchTerm, selectedCategory, selectedCity)
    }

    /** The address bar shows the current criteria. */
    predicate Synced()
      reads this
    {
      searchParams == UrlParams(CurrentCriteria())
    }

    /** The listings on screen. */
    function FilteredBusinesses(): seq<Listing>
      reads this
    {
      ApplyCriteria(businesses, CurrentCriteria())
    }

    /** The options of the city drop-down. */
    function AvailableCities(): seq<string>
      reads this
    {
      Listings.AvailableCities(businesses)
    }

    /** A page load: the criteria come from the address bar, nothing is fetched yet. */
    constructor (url: map<string, string>)
      ensures CurrentCriteria() == CriteriaFromUrl(url) && Synced()
      ensures businesses == [] && loading
      ensures selectedBusiness == None && showContactForm == None
      ensures revealedPhones == map[]
    {
      businesses := [];
      searchTerm := Param(url, "search");
      selectedCategory := Param(url, "category");
      selectedCity := Param(url, "city");
      loading := true;
      selectedBusiness := None;
      showContactForm := None;
      revealedPhones := map[];
      searchParams := UrlParams(CriteriaFromUrl(url));
    }

    /** `fetchBusinesses`: a failed request keeps the old list; either way loading ends. */
    method FetchBusinesses(response: Option<seq<Listing>>)
      modifies this
      ensures businesses == (if response.Some? then response.value else old(businesses))
      ensures !loading
      ensures CurrentCriteria() == old(CurrentCriteria()) && searchParams == old(searchParams)
      ensures selectedBusiness == old(selectedBusiness) && showContactForm == old(showContactForm)
      ensures revealedPhones == old(revealedPhones)
    {
      if response.Some? {
        businesses := response.value;
      }
      loading := false;
    }

    method SetSearchTerm(term: string)
      modifies this
      ensures CurrentCriteria() == old(CurrentCriteria()).(searchTerm := term) && Synced()
      ensures businesses == old(businesses) && loading == old(loading)
      ensures selectedBusiness == old(selectedBusiness) && showContactForm == old(showContactForm)
      ensures revealedPhones == old(revealedPhones)
    {
      searchTerm := term;
      searchParams := UrlParams(CurrentCriteria());
    }

    method SetCategory(category: string)
      modifies this
      ensures CurrentCriteria() == old(CurrentCriteria()).(category := category) && Synced()
      ensures businesses == old(businesses) && loading == old(loading)
      ensures selectedBusiness == old(selectedBusiness) && showContactForm == old(showContactForm)
      ensures revealedPhones == old(revealedPhones)
    {
      selectedCategory := category;
      searchParams := UrlParams(CurrentCriteria());
    }

    method SetCity(city: string)
      modifies this
      ensures CurrentCriteria() == old(CurrentCriteria()).(city := city) && Synced()
      ensures businesses == old(businesses) && loading == old(loading)
      ensures selectedBusiness == old(selectedBusiness) && showContactForm == old(showContactForm)
      ensures revealedPhones == old(revealedPhones)
    {
      selectedCity := city;
      searchParams := UrlParams(CurrentCriteria());
    }

    /** "Clear All": every criterion unset, the query string emptied, the full list shown. */
    method HandleClearFilters()
      modifies this
      ensures CurrentCriteria() == NoCriteria && searchParams == map[] && Synced()
      ensures FilteredBusinesses() == businesses
      ensures businesses == old(businesses) && loading == old(loading)
      ensures selectedBusiness == old(selectedBusiness) && showContactForm == old(showContactForm)
      ensures revealedPhones == old(revealedPhones)
    {
      searchTerm := "";
      selectedCategory := "";
      selectedCity := "";
      searchParams := map[];
      ApplyNoCriteria(businesses);
    }

    /** "Send Enquiry" on a card opens that listing's rating modal. */
    method HandleReviewClick(b: Listing)
      modifies this`selectedBusiness
      ensures selectedBusiness == Some(b)
    {
      selectedBusiness := Some(b);
    }

    /** Closing the rating modal clears it and fetches the listings again. */
    method HandleCloseModal(response: Option<seq<Listing>>)
      modifies this
      ensures selectedBusiness == None
      ensures businesses == (if response.Some? then response.value else old(businesses))
      ensures !loading
      ensures CurrentCriteria() == old(CurrentCriteria()) && searchParams == old(searchParams)
      ensures showContactForm == old(showContactForm) && revealedPhones == old(revealedPhones)
    {
      selectedBusiness := None;
      FetchBusinesses(response);
    }

    /** The phone stored for a business, `""` when there is none. */
    function StoredPhone(id: string): string
      reads this
    {
      if id in revealedPhones then revealedPhones[id] else ""
    }

    /** The phone button of the card with this id. */
    function GateFor(id: string): Gate
      reads this
    {
      GateOf(StoredPhone(id), showContactForm.Some? && showContactForm.value.id == id)
    }

    /** The WhatsApp link of a card: present exactly while its phone is revealed. */
    function WhatsAppLink(id: string): (link: Option<string>)
      reads this
      ensures link.Some? <==> GateFor(id).Revealed?
      ensures link.Some? ==> link.value == WhatsAppHref(GateFor(id).phone)
    {
      if StoredPhone(id) != "" then Some(WhatsAppHref(StoredPhone(id))) else None
    }

    /** `handlePhoneClick`: a card whose phone is already revealed does not open the form. */
    method HandlePhoneClick(b: Listing)
      modifies this`showContactForm
      ensures StoredPhone(b.id) != "" ==> showContactForm == old(showContactForm)
      ensures StoredPhone(b.id) == "" ==> showContactForm == Some(b)
      ensures GateFor(b.id) == Click(old(GateFor(b.id)))
    {
      if StoredPhone(b.id) != "" {
        return;
      }
      showContactForm := Some(b);
    }

    /**
     * `handleContactSuccess`: the phone is stored under the open form's
     * business, every other entry is kept, and the form closes.
     */
    method HandleContactSuccess(phone: string)
      requires showContactForm.Some?
      modifies this`revealedPhones, this`showContactForm
      ensures revealedPhones == old(revealedPhones)[old(showContactForm).value.id := phone]
      ensures showContactForm == None
      ensures GateFor(old(showContactForm).value.id) == Success(phone)
      ensures forall id :: id != old(showContactForm).value.id ==> GateFor(id) == old(GateFor(id))
    {
      revealedPhones := revealedPhones[showContactForm.value.id := phone];
      showContactForm := None;
    }

    /** The contact form's close button: no phone is stored. */
    method CloseContactForm()
      modifies this`showContactForm
      ensures showContactForm == None
      ensures forall id :: GateFor(id) == Dismiss(old(GateFor(id)))
    {
      showContactForm := None;
    }
  }
}
