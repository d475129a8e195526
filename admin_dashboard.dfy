/**
 * The admin dashboard: every listing, the admin's own listings and the
 * users' listings on three tabs, a company-name search over the chosen tab,
 * and the add/edit form.
 */
module AdminDashboard {
  import opened Wrappers
  import opened Seqs
  import opened Text
  import opened Listings

  /** Listings created through an owner's account rather than by the admin. */
  predicate IsUserListing(l: Listing) {
    !l.isAdminListing
  }

  predicate IsAdminFlagged(l: Listing) {
    l.isAdminListing
  }

  /** `allBusinesses.filter(b => !b.isAdminListing)` */
  function UserListings(all: seq<Listing>): seq<Listing> {
    Filter(all, IsUserListing)
  }

  /**
   * The users' tab holds exactly the unflagged listings, in the order of the
   * full list, and together with the flagged ones accounts for every listing once.
   */
  lemma UserListingsSpec(all: seq<Listing>)
    ensures forall l :: l in UserListings(all) <==> l in all && !l.isAdminListing
    ensures IsSubsequence(UserListings(all), all)
    ensures multiset(UserListings(all)) + multiset(Filter(all, IsAdminFlagged)) == multiset(all)
  {
    FilterIsSubsequence(all, IsUserListing);
    FilterPartition(all, IsUserListing);
    FilterCongruent(all, Not(IsUserListing), IsAdminFlagged);
  }

  /** The list a tab shows before the search: any tab value but 'admin' and 'user' shows everything. */
  function TabList(tab: string, all: seq<Listing>, admin: seq<Listing>, users: seq<Listing>): seq<Listing> {
    if tab == "admin" then admin else if tab == "user" then users else all
  }

  /** The search looks at the company name only, ignoring case. */
  predicate NameMatches(l: Listing, query: string) {
    ContainsIgnoringCase(l.businessName, query)
  }

  function NameStep(query: string): Listing -> bool {
    (l: Listing) => NameMatches(l, query)
  }

  /**
   * `getActiveList`: the tab's list narrowed to the names containing the query,
   * each matching row as often as the tab lists it, in the tab's order.
   */
  function ActiveList(tab: string, query: string, all: seq<Listing>, admin: seq<Listing>, users: seq<Listing>): (rows: seq<Listing>)
    ensures forall l :: l in rows <==> l in TabList(tab, all, admin, users) && NameMatches(l, query)
    ensures forall l ::
      multiset(rows)[l] == if NameMatches(l, query) then multiset(TabList(tab, all, admin, users))[l] else 0
    ensures IsSubsequence(rows, TabList(tab, all, admin, users))
  {
    FilterIsSubsequence(TabList(tab, all, admin, users), NameStep(query));
    FilterCount(TabList(tab, all, admin, users), NameStep(query));
    Filter(TabList(tab, all, admin, users), NameStep(query))
  }

  /** An empty search shows the tab's list unchanged, since every name contains "". */
  lemma EmptyQueryShowsTab(tab: string, all: seq<Listing>, admin: seq<Listing>, users: seq<Listing>)
    ensures ActiveList(tab, "", all, admin, users) == TabList(tab, all, admin, users)
  {
    var list := TabList(tab, all, admin, users);
    forall i | 0 <= i < |list|
      ensures NameStep("")(list[i])
    {
      IncludesEmpty(ToLower(list[i].businessName));
    }
    FilterKeepsAll(list, NameStep(""));
  }

  /** The description plays no part in the search: only the name decides. */
  lemma SearchIgnoresDescription(l: Listing, description: string, query: string)
    ensures NameMatches(l.(description := description), query) == NameMatches(l, query)
    ensures ContainsIgnoringCase(l.description, query) && !NameMatches(l, query) ==>
      forall tab, all, admin, users :: l !in ActiveList(tab, query, all, admin, users)
  {
  }

  /** How a dashboard fetch ended. */
  datatype FetchResult =
    | Fetched(all: seq<Listing>, admin: seq<Listing>)
    /** The request failed; `status` is the HTTP status when there was a response. */
    | Failed(status: Option<int>)

  /** A rejected token sends the admin home rather than showing an error. */
  predicate Unauthorised(status: Option<int>) {
    status == Some(401) || status == Some(403)
  }

  class AdminDashboardPage {
    var allBusinesses: seq<Listing>
    var adminListings: seq<Listing>
    var userListings: seq<Listing>
    var activeTab: string
    var showAddForm: bool
    var editingBusiness: Option<Listing>
    var loading: bool
    var error: string
    var searchQuery: string
    /** Where the dashboard navigated, if it left. */
    var navigatedTo: Option<string>

    /** The users' tab is always derived from the full list. */
    predicate Valid()
      reads this
    {
      userListings == UserListings(allBusinesses)
    }

    /** The rows on screen. */
    function Rows(): seq<Listing>
      reads this
    {
      ActiveList(activeTab, searchQuery, allBusinesses, adminListings, userListings)
    }

    /** The numbers on the three tab buttons: the unsearched list lengths. */
    function TabCounts(): (int, int, int)
      reads this
    {
      (|allBusinesses|, |adminListings|, |userListings|)
    }

    constructor ()
      ensures Valid() && activeTab == "all" && !showAddForm && editingBusiness == None
      ensures loading && error == "" && searchQuery == "" && navigatedTo == None
      ensures allBusinesses == [] && adminListings == []
    {
      allBusinesses := [];
      adminListings := [];
      userListings := [];
      activeTab := "all";
      showAddForm := false;
      editingBusiness := None;
      loading := true;
      error := "";
      searchQuery := "";
      navigatedTo := None;
    }

    /**
     * The state a dashboard fetch with outcome `result` leaves, given the lists,
     * error and navigation before it: on success both lists are replaced and
     * the users' tab rederived; a 401/403 navigates home; any other failure
     * shows the fetch error; either failure keeps the lists. Loading is over.
     */
    predicate FetchedFrom(result: FetchResult, all0: seq<Listing>, admin0: seq<Listing>,
                          error0: string, navigatedTo0: Option<string>)
      reads this
    {
      && Valid() && !loading
      && (result.Fetched? ==>
            allBusinesses == result.all && adminListings == result.admin
            && error == error0 && navigatedTo == navigatedTo0)
      && (result.Failed? ==> allBusinesses == all0 && adminListings == admin0)
      && (result.Failed? && Unauthorised(result.status) ==>
            navigatedTo == Some("/") && error == error0)
      && (result.Failed? && !Unauthorised(result.status) ==>
            error == "Failed to fetch data" && navigatedTo == navigatedTo0)
    }

    /** `fetchAllData`: on success all three lists are replaced; 401/403 leaves the page. */
    method FetchAllData(result: FetchResult)
      requires Valid()
      modifies this`allBusinesses, this`adminListings, this`userListings, this`loading,
        this`error, this`navigatedTo
      ensures FetchedFrom(result, old(allBusinesses), old(adminListings), old(error), old(navigatedTo))
    {
      match result {
        case Fetched(all, admin) =>
          allBusinesses := all;
          adminListings := admin;
          userListings := UserListings(all);
        case Failed(status) =>
          if Unauthorised(status) {
            navigatedTo := Some("/");
          } else {
            error := "Failed to fetch data";
          }
      }
      loading := false;
    }

    /** `handleDelete`: nothing without confirmation; a failed delete sets the error, a good one refetches. */
    method HandleDelete(confirmed: bool, deleted: bool, refetch: FetchResult)
      requires Valid()
      modifies this`allBusinesses, this`adminListings, this`userListings, this`loading,
        this`error, this`navigatedTo
      ensures Valid()
      ensures !confirmed ==> unchanged(this)
      ensures confirmed && !deleted ==>
        error == "Failed to delete business" && allBusinesses == old(allBusinesses)
        && adminListings == old(adminListings) && userListings == old(userListings)
        && loading == old(loading) && navigatedTo == old(navigatedTo)
      ensures confirmed && deleted ==>
        FetchedFrom(refetch, old(allBusinesses), old(adminListings), old(error), old(navigatedTo))
    {
      if !confirmed {
        return;
      }
      if deleted {
        FetchAllData(refetch);
      } else {
        error := "Failed to delete business";
      }
    }

    /** `handleEdit`: the form opens on the chosen listing. */
    method HandleEdit(b: Listing)
      requires Valid()
      modifies this`editingBusiness, this`showAddForm
      ensures Valid() && editingBusiness == Some(b) && showAddForm
    {
      editingBusiness := Some(b);
      showAddForm := true;
    }

    /** "Add New Business": the form opens on whatever is being edited, normally nothing. */
    method OpenAddForm()
      requires Valid()
      modifies this`showAddForm
      ensures Valid() && showAddForm
    {
      showAddForm := true;
    }

    /** `handleFormClose`: the form closes, nothing is being edited, and the lists are fetched again. */
    method HandleFormClose(refetch: FetchResult)
      requires Valid()
      modifies this`showAddForm, this`editingBusiness, this`allBusinesses, this`adminListings,
        this`userListings, this`loading, this`error, this`navigatedTo
      ensures !showAddForm && editingBusiness == None
      ensures FetchedFrom(refetch, old(allBusinesses), old(adminListings), old(error), old(navigatedTo))
    {
      showAddForm := false;
      editingBusiness := None;
      FetchAllData(refetch);
    }

    method SetActiveTab(tab: string)
      requires Valid()
      modifies this`activeTab
      ensures Valid() && activeTab == tab
    {
      activeTab := tab;
    }

    /** Typing in the search box changes the rows but never the tab counts. */
    method SetSearchQuery(query: string)
      requires Valid()
      modifies this`searchQuery
      ensures Valid() && searchQuery == query
      ensures TabCounts() == old(TabCounts())
      ensures forall l :: l in Rows() <==>
        l in TabList(activeTab, allBusinesses, adminListings, userListings) && NameMatches(l, query)
    {
      searchQuery := query;
    }
  }
}
