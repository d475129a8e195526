/**
 * The listing query shared by the public browse page and the admin-listings
 * page (`filterBusinesses`), and the city facet offered beside it
 * (`availableCities`).
 */
module Listings {
  import opened Seqs
  import opened Text
  import opened Order

  /** A business as the pages receive it from the server (only the fields the logic reads). */
  datatype Listing = Listing(
    id: string,
    businessName: string,
    description: string,
    category: string,
    city: string,
    phone: string,
    isAdminListing: bool)

  /** The three filter inputs; `""` means the criterion is not set. */
  datatype Criteria = Criteria(searchTerm: string, category: string, city: string)

  const NoCriteria := Criteria("", "", "")

  /** The free-text step: the term, ignoring case, inside the name or the description. */
  predicate MatchesText(l: Listing, term: string) {
    ContainsIgnoringCase(l.businessName, term) || ContainsIgnoringCase(l.description, term)
  }

  /** The city step: whole-string equality ignoring case, with no trimming. */
  predicate MatchesCity(l: Listing, city: string) {
    ToLower(l.city) == ToLower(city)
  }

  function TextStep(term: string): Listing -> bool {
    (l: Listing) => MatchesText(l, term)
  }

  function CategoryStep(category: string): Listing -> bool {
    (l: Listing) => l.category == category
  }

  function CityStep(city: string): Listing -> bool {
    (l: Listing) => MatchesCity(l, city)
  }

  /** `filterBusinesses`: each set criterion narrows the list in turn, text, then category, then city. */
  function ApplyCriteria(ls: seq<Listing>, c: Criteria): seq<Listing> {
    var byText := if c.searchTerm != "" then Filter(ls, TextStep(c.searchTerm)) else ls;
    var byCategory := if c.category != "" then Filter(byText, CategoryStep(c.category)) else byText;
    if c.city != "" then Filter(byCategory, CityStep(c.city)) else byCategory
  }

  /** A listing meets every criterion that is set. */
  predicate Satisfies(l: Listing, c: Criteria) {
    && (c.searchTerm == "" || MatchesText(l, c.searchTerm))
    && (c.category == "" || l.category == c.category)
    && (c.city == "" || MatchesCity(l, c.city))
  }

  function SatisfiesStep(c: Criteria): Listing -> bool {
    (l: Listing) => Satisfies(l, c)
  }

  /** `p` when `active`, and otherwise a predicate every listing passes. */
  function Guarded(active: bool, p: Listing -> bool): Listing -> bool {
    (l: Listing) => !active || p(l)
  }

  /** A step that runs only when its criterion is set is a filter by the guarded predicate. */
  lemma OptionalStep(s: seq<Listing>, active: bool, p: Listing -> bool)
    ensures (if active then Filter(s, p) else s) == Filter(s, Guarded(active, p))
  {
    if active {
      FilterCongruent(s, p, Guarded(active, p));
    } else {
      FilterKeepsAll(s, Guarded(active, p));
    }
  }

  /** The guarded steps, combined, pass exactly the listings that meet the criteria. */
  lemma GuardedConjunction(ls: seq<Listing>, c: Criteria)
    ensures Filter(ls, Both(Both(Guarded(c.searchTerm != "", TextStep(c.searchTerm)),
                                 Guarded(c.category != "", CategoryStep(c.category))),
                            Guarded(c.city != "", CityStep(c.city))))
         == Filter(ls, SatisfiesStep(c))
  {
    var t := Guarded(c.searchTerm != "", TextStep(c.searchTerm));
    var g := Guarded(c.category != "", CategoryStep(c.category));
    var y := Guarded(c.city != "", CityStep(c.city));
    forall i | 0 <= i < |ls|
      ensures Both(Both(t, g), y)(ls[i]) == SatisfiesStep(c)(ls[i])
    {
    }
    FilterCongruent(ls, Both(Both(t, g), y), SatisfiesStep(c));
  }

  /** The chain of steps is one filter by the conjunction of the set criteria. */
  lemma ApplyCriteriaIsConjunction(ls: seq<Listing>, c: Criteria)
    ensures ApplyCriteria(ls, c) == Filter(ls, SatisfiesStep(c))
  {
    var t := Guarded(c.searchTerm != "", TextStep(c.searchTerm));
    var g := Guarded(c.category != "", CategoryStep(c.category));
    var y := Guarded(c.city != "", CityStep(c.city));
    OptionalStep(ls, c.searchTerm != "", TextStep(c.searchTerm));
    var a := Filter(ls, t);
    OptionalStep(a, c.category != "", CategoryStep(c.category));
    var b := Filter(a, g);
    OptionalStep(b, c.city != "", CityStep(c.city));
    FilterFilter(ls, t, g);
    FilterFilter(ls, Both(t, g), y);
    GuardedConjunction(ls, c);
  }

  /** A listing is shown iff it is in the input and meets every set criterion. */
  lemma ApplyCriteriaMembers(ls: seq<Listing>, c: Criteria)
    ensures forall l :: l in ApplyCriteria(ls, c) <==> l in ls && Satisfies(l, c)
  {
    ApplyCriteriaIsConjunction(ls, c);
  }

  /** The result keeps the input's order and repeats nothing. */
  lemma ApplyCriteriaSubsequence(ls: seq<Listing>, c: Criteria)
    ensures IsSubsequence(ApplyCriteria(ls, c), ls)
    ensures multiset(ApplyCriteria(ls, c)) <= multiset(ls)
  {
    ApplyCriteriaIsConjunction(ls, c);
    FilterIsSubsequence(ls, SatisfiesStep(c));
    SubsequenceMultiset(ApplyCriteria(ls, c), ls);
  }

  /** With nothing set the query returns the list as fetched. */
  lemma ApplyNoCriteria(ls: seq<Listing>)
    ensures ApplyCriteria(ls, NoCriteria) == ls
  {
  }

  /**
   * The three steps by their position in `filterBusinesses` (0 text,
   * 1 category, 2 city), each a pass-everything filter when its criterion is
   * unset, which by `OptionalStep` is the same as skipping it.
   */
  function GuardedStep(k: nat, c: Criteria): Listing -> bool
    requires k < 3
  {
    if k == 0 then Guarded(c.searchTerm != "", TextStep(c.searchTerm))
    else if k == 1 then Guarded(c.category != "", CategoryStep(c.category))
    else Guarded(c.city != "", CityStep(c.city))
  }

  /** Three distinct positions cover all three steps, so together they pass exactly what meets the criteria. */
  lemma ThreeStepsCover(l: Listing, c: Criteria, i: nat, j: nat, k: nat)
    requires i < 3 && j < 3 && k < 3 && i != j && j != k && i != k
    ensures (GuardedStep(i, c)(l) && GuardedStep(j, c)(l) && GuardedStep(k, c)(l)) == Satisfies(l, c)
  {
    var t, g, y := GuardedStep(0, c)(l), GuardedStep(1, c)(l), GuardedStep(2, c)(l);
    assert t == (c.searchTerm == "" || MatchesText(l, c.searchTerm));
    assert g == (c.category == "" || l.category == c.category);
    assert y == (c.city == "" || MatchesCity(l, c.city));
    assert Satisfies(l, c) == (t && g && y);
  }

  /** Running the three steps in any of the six orders gives the same list. */
  lemma StepOrderIrrelevant(ls: seq<Listing>, c: Criteria, i: nat, j: nat, k: nat)
    requires i < 3 && j < 3 && k < 3 && i != j && j != k && i != k
    ensures Filter(Filter(Filter(ls, GuardedStep(i, c)), GuardedStep(j, c)), GuardedStep(k, c))
         == ApplyCriteria(ls, c)
  {
    var p, q, r := GuardedStep(i, c), GuardedStep(j, c), GuardedStep(k, c);
    FilterFilter(ls, p, q);
    FilterFilter(ls, Both(p, q), r);
    forall n | 0 <= n < |ls|
      ensures Both(Both(p, q), r)(ls[n]) == SatisfiesStep(c)(ls[n])
    {
      ThreeStepsCover(ls[n], c, i, j, k);
    }
    FilterCongruent(ls, Both(Both(p, q), r), SatisfiesStep(c));
    ApplyCriteriaIsConjunction(ls, c);
  }

  /** The text step in terms of substrings of the lower-cased fields. */
  lemma MatchesTextIff(l: Listing, term: string)
    ensures MatchesText(l, term) <==>
      (exists i :: OccursAt(ToLower(l.businessName), ToLower(term), i))
      || (exists i :: OccursAt(ToLower(l.description), ToLower(term), i))
  {
    IncludesIff(ToLower(l.businessName), ToLower(term));
    IncludesIff(ToLower(l.description), ToLower(term));
  }

  /** City matching ignores case but not surrounding white space. */
  lemma CityMatchExamples()
    ensures MatchesCity(Listing("1", "n", "d", "Retail", "LUCKNOW", "", false), "Lucknow")
    ensures !MatchesCity(Listing("2", "n", "d", "Retail", "Lucknow ", "", false), "Lucknow")
  {
    assert |ToLower("Lucknow ")| != |ToLower("Lucknow")|;
  }

  /** Category matching is exact, case included. */
  lemma CategoryMatchIsExact()
    ensures !Satisfies(Listing("1", "n", "d", "restaurant", "Pune", "", false), Criteria("", "Restaurant", ""))
  {
  }

  /** The city of every listing, in list order. */
  function Cities(ls: seq<Listing>): seq<string> {
    seq(|ls|, i requires 0 <= i < |ls| => ls[i].city)
  }

  /** `[...new Set(businesses.map(b => b.city))].sort()` */
  function AvailableCities(ls: seq<Listing>): seq<string> {
    SortStrings(Distinct(Cities(ls)))
  }

  /**
   * The city facet lists every city of the unfiltered list and nothing else,
   * once each, in ascending order.
   */
  lemma AvailableCitiesSpec(ls: seq<Listing>)
    ensures var r := AvailableCities(ls);
      && (forall i, j :: 0 <= i < j < |r| ==> LexLe(r[i], r[j]) && r[i] != r[j])
      && (forall c :: c in r <==> exists l :: l in ls && l.city == c)
  {
    var d := Distinct(Cities(ls));
    var r := SortStrings(d);
    SortStringsSorted(d);
    NoRepeats(r);
    forall c
      ensures c in r <==> exists l :: l in ls && l.city == c
    {
      assert c in r <==> c in multiset(r);
      assert c in multiset(d) <==> c in d;
      if c in Cities(ls) {
        var i :| 0 <= i < |ls| && Cities(ls)[i] == c;
        assert ls[i] in ls;
      }
      if l :| l in ls && l.city == c {
        var i :| 0 <= i < |ls| && ls[i] == l;
        assert Cities(ls)[i] == c;
      }
    }
  }
}
