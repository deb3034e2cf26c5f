/** The brand browser: a text search and a category filter over the brand
    table, mirrored in the page URL's query parameters. */
module BrandsPage {
  import opened Types
  import opened Seqs
  import Text
  import Catalog

  /** The search test: the lowercased name or description includes the lowercased term. */
  predicate MatchesSearch(b: Brand, search: string) {
    || Text.Includes(Text.ToLower(b.name), Text.ToLower(search))
    || Text.Includes(Text.ToLower(b.description), Text.ToLower(search))
  }

  /** The category filter applies only to a non-empty category other than "All". */
  predicate RestrictsCategory(category: string) {
    category != "" && category != "All"
  }

  function BySearch(brands: seq<Brand>, search: string): (r: seq<Brand>)
    ensures forall b :: b in r <==> b in brands && MatchesSearch(b, search)
    ensures forall b :: multiset(r)[b] == if MatchesSearch(b, search) then multiset(brands)[b] else 0
    ensures IsSubsequence(r, brands)
  {
    Filter((b: Brand) => MatchesSearch(b, search), brands)
  }

  function ByCategory(brands: seq<Brand>, category: string): (r: seq<Brand>)
    ensures forall b :: b in r <==> b in brands && b.category == category
    ensures forall b :: multiset(r)[b] == if b.category == category then multiset(brands)[b] else 0
    ensures IsSubsequence(r, brands)
  {
    Filter((b: Brand) => b.category == category, brands)
  }

  /** The list `filterBrands` shows for a search term and a category. */
  function FilteredBrands(brands: seq<Brand>, search: string, category: string): (r: seq<Brand>)
    ensures IsSubsequence(r, brands)
    ensures forall b :: b in r <==>
              && b in brands
              && (search == "" || MatchesSearch(b, search))
              && (!RestrictsCategory(category) || b.category == category)
  {
    var afterSearch := if search != "" then BySearch(brands, search) else brands;
    SubsequenceReflexive(brands);
    if RestrictsCategory(category) then
      var r := ByCategory(afterSearch, category);
      SubsequenceTransitive(r, afterSearch, brands);
      r
    else
      afterSearch
  }

  /** Every shown brand is shown as often as the table lists it, and the rest not at all. */
  lemma FilteredBrandsCounts(brands: seq<Brand>, search: string, category: string)
    ensures forall b :: multiset(FilteredBrands(brands, search, category))[b] ==
              if (search == "" || MatchesSearch(b, search)) && (!RestrictsCategory(category) || b.category == category)
              then multiset(brands)[b] else 0
  {
    var afterSearch := if search != "" then BySearch(brands, search) else brands;
    assert RestrictsCategory(category) ==> FilteredBrands(brands, search, category) == ByCategory(afterSearch, category);
  }

  /** With no search term and no category restriction every brand is shown, in order. */
  lemma NoCriteriaShowsAll(brands: seq<Brand>, category: string)
    requires category == "" || category == "All"
    ensures FilteredBrands(brands, "", category) == brands
  {
  }

  /** The search ignores case: a term and its lowercase form show the same brands. */
  lemma SearchIgnoresCase(brands: seq<Brand>, search: string, category: string)
    ensures FilteredBrands(brands, Text.ToLower(search), category) == FilteredBrands(brands, search, category)
  {
    Text.ToLowerIdempotent(search);
    FilterCongruent((b: Brand) => MatchesSearch(b, Text.ToLower(search)), (b: Brand) => MatchesSearch(b, search), brands);
  }

  /** A query parameter `key=value` of the page URL. */
  datatype Param = Param(key: string, value: string)

  /** `params.get(key)`: the value of the first parameter named `key`. */
  function GetParam(params: seq<Param>, key: string): Option<string>
  {
    if params == [] then None
    else if params[0].key == key then Some(params[0].value)
    else GetParam(params[1..], key)
  }

  lemma GetParamSingle(p: Param, k: string)
    ensures GetParam([p], k) == if p.key == k then Some(p.value) else None
  {
    assert [p][1..] == [];
  }

  lemma {:induction false} GetParamAppend(a: seq<Param>, b: seq<Param>, k: string)
    ensures GetParam(a + b, k) == if GetParam(a, k).Some? then GetParam(a, k) else GetParam(b, k)
    decreases |a|
  {
    if a == [] {
      assert a + b == b;
    } else {
      assert (a + b)[1..] == a[1..] + b;
      GetParamAppend(a[1..], b, k);
    }
  }

  lemma {:induction false} GetParamSkipsOtherKeys(params: seq<Param>, key: string, k: string)
    requires k != key
    ensures GetParam(Filter((p: Param) => p.key != key, params), k) == GetParam(params, k)
    decreases |params|
  {
    if params != [] {
      GetParamSkipsOtherKeys(params[1..], key, k);
    }
  }

  /** `params.set(key, value)`: the first parameter named `key` takes the value, later ones
      are dropped, and when there is none the parameter is appended. */
  function SetParam(params: seq<Param>, key: string, value: string): (r: seq<Param>)
    ensures GetParam(r, key) == Some(value)
    ensures forall k :: k != key ==> GetParam(r, k) == GetParam(params, k)
    decreases |params|
  {
    if params == [] then [Param(key, value)]
    else if params[0].key == key then
      var rest := Filter((p: Param) => p.key != key, params[1..]);
      assert forall k :: k != key ==> GetParam(rest, k) == GetParam(params[1..], k) by {
        forall k | k != key ensures GetParam(rest, k) == GetParam(params[1..], k) {
          GetParamSkipsOtherKeys(params[1..], key, k);
        }
      }
      assert ([Param(key, value)] + rest)[1..] == rest;
      [Param(key, value)] + rest
    else
      var rest := SetParam(params[1..], key, value);
      assert ([params[0]] + rest)[1..] == rest;
      [params[0]] + rest
  }

  /** The query `updateUrlParams` writes: `search` for a non-empty term, then `category`
      for a category that restricts. */
  function UrlParams(search: string, category: string): (r: seq<Param>)
    ensures GetParam(r, "search") == if search != "" then Some(search) else None
    ensures GetParam(r, "category") == if RestrictsCategory(category) then Some(category) else None
    ensures forall k :: k != "search" && k != "category" ==> GetParam(r, k) == None
    ensures |r| <= 2
  {
    var first := if search != "" then [Param("search", search)] else [];
    var second := if RestrictsCategory(category) then [Param("category", category)] else [];
    forall k ensures GetParam(first + second, k) == if GetParam(first, k).Some? then GetParam(first, k) else GetParam(second, k) {
      GetParamAppend(first, second, k);
    }
    forall k | k != "search" && k != "category" ensures GetParam(first, k) == None && GetParam(second, k) == None {
      GetParamSingle(Param("search", search), k);
      GetParamSingle(Param("category", category), k);
    }
    first + second
  }

  /** `params.get(key) || fallback`: the parameter's value unless it is absent or empty. */
  function ParamOr(params: seq<Param>, key: string, fallback: string): string {
    var v := GetParam(params, key);
    if v.Some? && v.value != "" then v.value else fallback
  }

  class BrandsView {
    /** The brand table the page imports. */
    const catalog: seq<Brand>
    var searchTerm: string
    var selectedCategory: string
    var filteredBrands: seq<Brand>
    /** The query parameters of the page URL. */
    var searchParams: seq<Param>

    /** The first render: term and category come from the URL (defaults "" and "All"), and
        the whole table is shown until the effect runs. */
    constructor (params: seq<Param>)
      ensures catalog == Catalog.Brands()
      ensures searchParams == params
      ensures searchTerm == ParamOr(params, "search", "")
      ensures selectedCategory == ParamOr(params, "category", "All")
      ensures filteredBrands == catalog
    {
      searchParams := params;
      searchTerm := ParamOr(params, "search", "");
      selectedCategory := ParamOr(params, "category", "All");
      catalog := Catalog.Brands();
      filteredBrands := catalog;
    }

    /** The effect that runs whenever the URL's query changes: a non-empty `search` or
        `category` in the URL replaces the current one, and the list is filtered by the result. */
    method SyncFromUrl()
      modifies this`searchTerm, this`selectedCategory, this`filteredBrands
      ensures searchTerm == ParamOr(searchParams, "search", old(searchTerm))
      ensures selectedCategory == ParamOr(searchParams, "category", old(selectedCategory))
      ensures filteredBrands == FilteredBrands(catalog, searchTerm, selectedCategory)
    {
      var searchParam := GetParam(searchParams, "search");
      var categoryParam := GetParam(searchParams, "category");
      if searchParam.Some? && searchParam.value != "" {
        searchTerm := searchParam.value;
      }
      if categoryParam.Some? && categoryParam.value != "" {
        selectedCategory := categoryParam.value;
      }
      FilterBrands(ParamOr(searchParams, "search", searchTerm), ParamOr(searchParams, "category", selectedCategory));
    }

    method FilterBrands(search: string, category: string)
      modifies this`filteredBrands
      ensures filteredBrands == FilteredBrands(catalog, search, category)
    {
      var filtered := catalog;
      if search != "" {
        filtered := BySearch(filtered, search);
      }
      if RestrictsCategory(category) {
        filtered := ByCategory(filtered, category);
      }
      filteredBrands := filtered;
    }

    method UpdateUrlParams(search: string, category: string)
      modifies this`searchParams
      ensures searchParams == UrlParams(search, category)
    {
      var params: seq<Param> := [];
      if search != "" {
        params := SetParam(params, "search", search);
        assert params == [Param("search", search)];
      }
      if RestrictsCategory(category) {
        assert SetParam(params, "category", category) == params + [Param("category", category)] by {
          if params != [] {
            assert params[1..] == [];
          }
        }
        params := SetParam(params, "category", category);
      }
      searchParams := params;
    }

    method ClearFilters()
      modifies this`searchTerm, this`selectedCategory, this`searchParams, this`filteredBrands
      ensures searchTerm == "" && selectedCategory == "All"
      ensures searchParams == []
      ensures filteredBrands == catalog
      ensures filteredBrands == FilteredBrands(catalog, searchTerm, selectedCategory)
    {
      searchTerm := "";
      selectedCategory := "All";
      UpdateUrlParams("", "All");
      filteredBrands := catalog;
      NoCriteriaShowsAll(catalog, "All");
    }

    /** Typing in the search box: only the term changes; URL and list wait for the submit. */
    method TypeSearch(term: string)
      modifies this`searchTerm
      ensures searchTerm == term
    {
      searchTerm := term;
    }

    /** Submitting the search form. */
    method HandleSearch()
      modifies this`searchParams, this`filteredBrands
      ensures searchParams == UrlParams(searchTerm, selectedCategory)
      ensures filteredBrands == FilteredBrands(catalog, searchTerm, selectedCategory)
    {
      UpdateUrlParams(searchTerm, selectedCategory);
      FilterBrands(searchTerm, selectedCategory);
    }

    /** Picking a category. */
    method HandleCategoryChange(category: string)
      modifies this`selectedCategory, this`searchParams, this`filteredBrands
      ensures selectedCategory == category
      ensures searchParams == UrlParams(searchTerm, category)
      ensures filteredBrands == FilteredBrands(catalog, searchTerm, category)
    {
      selectedCategory := category;
      UpdateUrlParams(searchTerm, category);
      FilterBrands(searchTerm, category);
    }
  }

  /** Opening the page: the first render followed by its effect shows the brands that the
      URL's term and category select. */
  method OpenBrandsPage(params: seq<Param>) returns (v: BrandsView)
    ensures v.catalog == Catalog.Brands() && v.searchParams == params
    ensures v.searchTerm == ParamOr(params, "search", "")
    ensures v.selectedCategory == ParamOr(params, "category", "All")
    ensures v.filteredBrands == FilteredBrands(v.catalog, v.searchTerm, v.selectedCategory)
  {
    v := new BrandsView(params);
    v.SyncFromUrl();
  }
}
