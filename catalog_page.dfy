/** The category search of the catalog page: a filter over the categories of
    one catalog file by search term and the featured-only switch. */
module CatalogPage {
  import opened Strings
  import opened Equipment
  import opened Sequences

  /** Some product of the category has the lowercased term in its lowercased
      name or description. */
  predicate SomeProductMatches(c: Category, term: string) {
    exists j :: 0 <= j < |c.subcategories| &&
      (Contains(Lower(c.subcategories[j].name), Lower(term)) ||
       Contains(Lower(c.subcategories[j].description), Lower(term)))
  }

  /** `matchesSearch`: the empty term, or a case-insensitive hit in the
      category's name, its description, or some product. */
  predicate MatchesSearch(c: Category, term: string) {
    term == "" ||
    Contains(Lower(c.name), Lower(term)) ||
    Contains(Lower(c.description), Lower(term)) ||
    SomeProductMatches(c, term)
  }

  /** `matchesFeatured` */
  predicate MatchesFeatured(c: Category, featuredOnly: bool) {
    !featuredOnly || c.featured
  }

  predicate Kept(c: Category, term: string, featuredOnly: bool) {
    MatchesSearch(c, term) && MatchesFeatured(c, featuredOnly)
  }

  /** `filteredCategories` */
  function FilteredCategories(cats: seq<Category>, term: string, featuredOnly: bool): (r: seq<Category>)
    ensures forall k :: 0 <= k < |r| ==> MatchesSearch(r[k], term)
    ensures featuredOnly ==> forall k :: 0 <= k < |r| ==> r[k].featured
  {
    Filter(cats, c => Kept(c, term, featuredOnly))
  }

  /** The shortcut for the empty term does not change the outcome: every
      string contains the empty string. */
  lemma MatchesSearchIff(c: Category, term: string)
    ensures MatchesSearch(c, term) <==>
      (Contains(Lower(c.name), Lower(term)) ||
       Contains(Lower(c.description), Lower(term)) ||
       SomeProductMatches(c, term))
  {
    if term == "" {
      assert Lower(term) == "";
      EmptyContained(Lower(c.name));
    }
  }

  /** A category is shown iff it matches the search and the featured switch. */
  lemma FilteredMember(cats: seq<Category>, term: string, featuredOnly: bool, c: Category)
    ensures c in FilteredCategories(cats, term, featuredOnly) <==>
      c in cats && MatchesSearch(c, term) && MatchesFeatured(c, featuredOnly)
  {
    FilterMember(cats, c => Kept(c, term, featuredOnly), c);
  }

  /** The shown categories keep their order and come from the input. */
  lemma FilteredSubsequence(cats: seq<Category>, term: string, featuredOnly: bool)
    ensures IsSubsequence(FilteredCategories(cats, term, featuredOnly), cats)
  {
    FilterSubsequence(cats, c => Kept(c, term, featuredOnly));
  }

  /** With no search term and the switch off, all categories are shown. */
  lemma NoFilterShowsAll(cats: seq<Category>)
    ensures FilteredCategories(cats, "", false) == cats
  {
    FilterAll(cats, c => Kept(c, "", false));
  }

  /** Turning the featured switch on only hides categories: the result is the
      featured part of the result with the switch off. */
  lemma FeaturedNarrows(cats: seq<Category>, term: string)
    ensures FilteredCategories(cats, term, true) == Filter(FilteredCategories(cats, term, false), (c: Category) => c.featured)
    ensures IsSubsequence(FilteredCategories(cats, term, true), FilteredCategories(cats, term, false))
  {
    var all := FilteredCategories(cats, term, false);
    FilterFilter(cats, c => Kept(c, term, false), (c: Category) => c.featured, c => Kept(c, term, true));
    FilterSubsequence(all, (c: Category) => c.featured);
  }
}
