/** The filter bar above the category grid: the search term and the
    featured-only switch, the events that change them, and the two counts it
    shows. Each event returns the pair it passes to `onFilterChange`. */
module FilterBar {
  import opened Equipment
  import opened Sequences
  import opened Traversal
  import CatalogPage

  class FilterBar {
    var searchTerm: string
    var featuredOnly: bool

    constructor ()
      ensures searchTerm == "" && !featuredOnly
    {
      searchTerm := "";
      featuredOnly := false;
    }

    /** `handleSearchChange` */
    method HandleSearchChange(value: string) returns (emitted: (string, bool))
      modifies this
      ensures searchTerm == value && featuredOnly == old(featuredOnly)
      ensures emitted == (value, old(featuredOnly))
    {
      searchTerm := value;
      emitted := (value, featuredOnly);
    }

    /** The clear button of the search field. */
    method HandleClear() returns (emitted: (string, bool))
      modifies this
      ensures searchTerm == "" && featuredOnly == old(featuredOnly)
      ensures emitted == ("", old(featuredOnly))
    {
      emitted := HandleSearchChange("");
    }

    /** `handleFeaturedToggle` */
    method HandleFeaturedToggle() returns (emitted: (string, bool))
      modifies this
      ensures featuredOnly == !old(featuredOnly) && searchTerm == old(searchTerm)
      ensures emitted == (old(searchTerm), !old(featuredOnly))
    {
      var newFeaturedValue := !featuredOnly;
      featuredOnly := newFeaturedValue;
      emitted := (searchTerm, newFeaturedValue);
    }

    /** `handleReset` */
    method HandleReset() returns (emitted: (string, bool))
      modifies this
      ensures searchTerm == "" && !featuredOnly
      ensures emitted == ("", false)
      ensures !ShowsReset()
    {
      searchTerm := "";
      featuredOnly := false;
      emitted := ("", false);
    }

    /** The Reset button is rendered. */
    predicate ShowsReset()
      reads this
    {
      searchTerm != "" || featuredOnly
    }

    /** Two toggles in a row give back the state and emit it. */
    method ToggleTwice() returns (emitted: (string, bool))
      modifies this
      ensures searchTerm == old(searchTerm) && featuredOnly == old(featuredOnly)
      ensures emitted == (old(searchTerm), old(featuredOnly))
    {
      var _ := HandleFeaturedToggle();
      emitted := HandleFeaturedToggle();
    }
  }

  /** `totalItems`: the declared item counts added up. */
  function TotalItems(cats: seq<Category>): int {
    if cats == [] then 0 else TotalItems(cats[..|cats| - 1]) + cats[|cats| - 1].itemCount
  }

  /** `featuredCount` */
  function FeaturedCount(cats: seq<Category>): (n: nat)
    ensures n <= |cats|
  {
    |Filter(cats, (c: Category) => c.featured)|
  }

  /** The total is the number of products only when every category declares
      its own product count truthfully. */
  lemma {:induction false} TotalItemsDeclared(cats: seq<Category>)
    requires forall i :: 0 <= i < |cats| ==> cats[i].itemCount == |cats[i].subcategories|
    ensures TotalItems(cats) == Count(cats)
  {
    if cats != [] {
      TotalItemsDeclared(cats[..|cats| - 1]);
    }
  }

  /** The total follows the declared counts, not the products: one category
      that declares 5 items and lists none. */
  lemma TotalItemsNotProducts()
    ensures exists cats :: TotalItems(cats) != Count(cats)
  {
    var c := Category("c", "", "", "", 5, false, Wrappers.None, Wrappers.None, []);
    assert [c][..0] == [];
    assert TotalItems([c]) == 5 && Count([c]) == 0;
  }

  /** The featured count is the number of categories the page shows with the
      switch on and no search term. */
  lemma FeaturedCountShown(cats: seq<Category>)
    ensures FeaturedCount(cats) == |CatalogPage.FilteredCategories(cats, "", true)|
  {
    assert forall c :: CatalogPage.Kept(c, "", true) == c.featured;
    FilterSame(cats, (c: Category) => c.featured, c => CatalogPage.Kept(c, "", true));
  }

  lemma {:induction false} FilterSame(cats: seq<Category>, p: Category -> bool, q: Category -> bool)
    requires forall c :: p(c) == q(c)
    ensures Filter(cats, p) == Filter(cats, q)
  {
    if cats != [] {
      FilterSame(cats[1..], p, q);
    }
  }
}
