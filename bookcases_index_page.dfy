/** The bookcases index page: the search string it sends and the page, page size and
    filters it keeps in state. */
module BookcasesIndexPage {
  import opened Wrappers
  import opened Text
  import opened QueryParams

  const ZonePrefix: string := "zone_id:"

  /** `[filters.search, filters.zone_id ? "zone_id:" + zone_id : null].filter(Boolean).join(' ')` */
  function CombinedSearch(filters: map<string, string>): (r: string)
    ensures !Truthy(FilterValue(filters, "search")) && !Truthy(FilterValue(filters, "zone_id")) ==> r == ""
    ensures Truthy(FilterValue(filters, "search")) && !Truthy(FilterValue(filters, "zone_id")) ==>
      r == filters["search"]
    ensures !Truthy(FilterValue(filters, "search")) && Truthy(FilterValue(filters, "zone_id")) ==>
      r == ZonePrefix + filters["zone_id"]
    ensures Truthy(FilterValue(filters, "search")) && Truthy(FilterValue(filters, "zone_id")) ==>
      r == filters["search"] + " " + ZonePrefix + filters["zone_id"]
  {
    var parts := SearchParts(filters);
    assert |parts| == 2 ==> Join(parts, " ") == parts[0] + " " + parts[1] by {
      if |parts| == 2 { assert parts[1..] == [parts[1]]; }
    }
    Join(parts, " ")
  }

  /** The truthy parts, search text first. */
  function SearchParts(filters: map<string, string>): (r: seq<string>)
    ensures forall k | 0 <= k < |r| :: r[k] != ""
  {
    var search := FilterValue(filters, "search");
    var zone := FilterValue(filters, "zone_id");
    (if Truthy(search) then [search.value] else []) + (if Truthy(zone) then [ZonePrefix + zone.value] else [])
  }

  /** Only the `search` and `zone_id` filters reach the search string. */
  lemma OtherFiltersIgnored(filters: map<string, string>, key: string, value: string)
    requires key != "search" && key != "zone_id"
    ensures CombinedSearch(filters[key := value]) == CombinedSearch(filters)
  {
    assert FilterValue(filters[key := value], "search") == FilterValue(filters, "search");
    assert FilterValue(filters[key := value], "zone_id") == FilterValue(filters, "zone_id");
  }

  /** The page's filter inputs are `number` and `capacity`, so whatever is typed in them
      the search string sent is empty. */
  lemma {:induction false} PageFiltersSearchNothing(filters: map<string, string>)
    requires forall k | k in filters :: k == "number" || k == "capacity"
    ensures CombinedSearch(filters) == ""
  {
    assert "search" !in filters && "zone_id" !in filters;
  }

  /** Splitting the search string on spaces gives back its parts when the search text
      holds no space and the zone id none either. */
  lemma {:induction false} CombinedSearchSplits(filters: map<string, string>)
    requires forall k | k in filters :: ' ' !in filters[k]
    requires Truthy(FilterValue(filters, "search")) || Truthy(FilterValue(filters, "zone_id"))
    ensures Split(CombinedSearch(filters), " ") == SearchParts(filters)
  {
    var parts := SearchParts(filters);
    forall k | 0 <= k < |parts|
      ensures EndsCleanly(parts[k], " ")
    {
      assert ' ' !in parts[k];
      SingleCharClean(parts[k], ' ');
    }
    SplitJoin(parts, " ");
  }

  class IndexState {
    var currentPage: JsInt
    var perPage: JsInt
    var filters: map<string, string>

    /** The initial state, from the page's URL. */
    constructor (url: string)
      ensures currentPage == InitialPage(url) && perPage == InitialPerPage(url)
      ensures filters == map[]
    {
      currentPage := InitialPage(url);
      perPage := InitialPerPage(url);
      filters := map[];
    }

    /** The search string sent with the current state. */
    function Search(): string
      reads this
    {
      CombinedSearch(filters)
    }

    /** `handlePageChange` */
    method ChangePage(page: int)
      modifies this
      ensures currentPage == Int(page)
      ensures perPage == old(perPage) && filters == old(filters)
    {
      currentPage := Int(page);
    }

    /** `handlePerPageChange`: the new size, back to page 1. */
    method ChangePerPage(newPerPage: int)
      modifies this
      ensures perPage == Int(newPerPage) && currentPage == Int(1)
      ensures filters == old(filters)
    {
      perPage := Int(newPerPage);
      currentPage := Int(1);
    }

    /** `onFilterChange={setFilters}`: the new filters; the page is kept as it was. */
    method ChangeFilters(newFilters: map<string, string>)
      modifies this
      ensures filters == newFilters
      ensures currentPage == old(currentPage) && perPage == old(perPage)
    {
      filters := newFilters;
    }
  }
}
