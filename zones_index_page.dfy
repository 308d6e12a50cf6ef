/** The zones index page: the search array it sends, the genre picker's options, and the
    page, page size, filters and genre it keeps in state. */
module ZonesIndexPage {
  import opened Wrappers
  import opened Text
  import opened Seqs
  import opened QueryParams
  import opened ZoneResource
  import opened ZoneIndexAction

  /** `value || "null"` */
  function OrNull(v: Option<string>): (r: string)
    ensures r != ""
  {
    if Truthy(v) then v.value else "null"
  }

  /** `searchFilters` as the page writes it: `[number, capacity, floor, genre]`. */
  function SearchFilters(filters: map<string, string>, genre: Option<string>): seq<string> {
    [OrNull(FilterValue(filters, "number")), OrNull(FilterValue(filters, "capacity")),
     OrNull(FilterValue(filters, "floor")), OrNull(genre)]
  }

  /** The order the action reads: `[number, capacity, genre, floor]`. */
  function SearchFiltersFixed(filters: map<string, string>, genre: Option<string>): seq<string> {
    [OrNull(FilterValue(filters, "number")), OrNull(FilterValue(filters, "capacity")),
     OrNull(genre), OrNull(FilterValue(filters, "floor"))]
  }

  /** The array as it reaches the action: every slot a string. */
  function Sent(search: seq<string>): (r: seq<Option<string>>)
    ensures |r| == |search| && forall i | 0 <= i < |search| :: r[i] == Some(search[i])
  {
    seq(|search|, i requires 0 <= i < |search| => Some(search[i]))
  }

  /** What a slot asks for: nothing when it is "null", the text otherwise. */
  function SlotValue(slot: string): Option<string> {
    if slot == "null" then None else Some(slot)
  }

  /** The filter a value means: a truthy value other than the text "null". */
  function Meant(v: Option<string>): Option<string> {
    if Truthy(v) && v.value != "null" then v else None
  }

  lemma SlotValueOfOrNull(v: Option<string>)
    ensures SlotValue(OrNull(v)) == Meant(v)
  {
  }

  /** The page's array: four slots, and slot 2 carries the floor filter and slot 3 the genre. */
  lemma SearchFiltersSlots(filters: map<string, string>, genre: Option<string>)
    ensures var s := SearchFilters(filters, genre);
            |s| == 4 &&
            SlotValue(s[NumberSlot]) == Meant(FilterValue(filters, "number")) &&
            SlotValue(s[CapacitySlot]) == Meant(FilterValue(filters, "capacity")) &&
            SlotValue(s[GenreSlot]) == Meant(FilterValue(filters, "floor")) &&
            SlotValue(s[FloorSlot]) == Meant(genre)
  {
    SlotValueOfOrNull(FilterValue(filters, "number"));
    SlotValueOfOrNull(FilterValue(filters, "capacity"));
    SlotValueOfOrNull(FilterValue(filters, "floor"));
    SlotValueOfOrNull(genre);
  }

  /** A floor filter of "2" reaches the action as a genre filter, with the floor filter off. */
  lemma FloorSentAsGenre(floors: seq<Floor>)
    ensures var c := CriteriaOf(Sent(SearchFilters(map["floor" := "2"], None)), floors);
            c.Ok? && c.value.genre == GenreContains("2") && c.value.floor == AnyFloor
  {
    var s := Sent(SearchFilters(map["floor" := "2"], None));
    assert s == [Some("null"), Some("null"), Some("2"), Some("null")];
  }

  /** Choosing the genre "Fantasy" sends it in the floor slot, where it is compared with an
      integer column: the search fails. */
  lemma GenreSentAsFloor(floors: seq<Floor>)
    ensures CriteriaOf(Sent(SearchFilters(map[], Some("Fantasy"))), floors) == Err(InvalidInteger)
  {
    var s := Sent(SearchFilters(map[], Some("Fantasy")));
    assert s == [Some("null"), Some("null"), Some("null"), Some("Fantasy")];
    assert ParseInteger("Fantasy") == None;
  }

  /** With the slots in the action's order each filter lands in its own slot. */
  lemma SearchFiltersFixedSlots(filters: map<string, string>, genre: Option<string>)
    ensures var s := SearchFiltersFixed(filters, genre);
            |s| == 4 &&
            SlotValue(s[NumberSlot]) == Meant(FilterValue(filters, "number")) &&
            SlotValue(s[CapacitySlot]) == Meant(FilterValue(filters, "capacity")) &&
            SlotValue(s[GenreSlot]) == Meant(genre) &&
            SlotValue(s[FloorSlot]) == Meant(FilterValue(filters, "floor"))
  {
    SlotValueOfOrNull(FilterValue(filters, "number"));
    SlotValueOfOrNull(FilterValue(filters, "capacity"));
    SlotValueOfOrNull(FilterValue(filters, "floor"));
    SlotValueOfOrNull(genre);
  }

  /** ... and the action then filters on the chosen genre and floor: a zone is listed exactly
      when its genre contains the chosen one and it lies on the floor with the chosen number
      (each where one was chosen), and its number and capacity agree likewise. */
  lemma {:induction false} FixedSearchFiltersAsChosen(filters: map<string, string>, genre: Option<string>, floors: seq<Floor>, z: Zone)
    requires CriteriaOf(Sent(SearchFiltersFixed(filters, genre)), floors).Ok?
    ensures var number, capacity, floor, g := Meant(FilterValue(filters, "number")),
              Meant(FilterValue(filters, "capacity")), Meant(FilterValue(filters, "floor")), Meant(genre);
            Matches(CriteriaOf(Sent(SearchFiltersFixed(filters, genre)), floors).value, z) <==>
              (number.None? || ParseInteger(number.value) == Some(z.number)) &&
              (capacity.None? || ParseInteger(capacity.value) == Some(z.capacity)) &&
              (g.None? || Contains(Lower(z.genreName), Lower(g.value))) &&
              (floor.None? ||
                (ParseInteger(floor.value).Some? &&
                 FirstFloorNumbered(floors, ParseInteger(floor.value).value).Some? &&
                 FirstFloorNumbered(floors, ParseInteger(floor.value).value).value.id == z.floorId))
  {
    var s := SearchFiltersFixed(filters, genre);
    SearchFiltersFixedSlots(filters, genre);
    MatchesIff(Sent(s), floors, z);
  }

  // ---------------------------------------------------------------------------
  // Genre options

  datatype GenreOption = GenreOption(labelText: string, value: string)

  /** The distinct non-empty genre names, each where it first occurs. */
  function FirstOccurrences(names: seq<string>): (r: seq<string>)
    decreases |names|
  {
    if names == [] then []
    else
      var init := names[..|names| - 1];
      var last := names[|names| - 1];
      FirstOccurrences(init) + (if last != "" && last !in FirstOccurrences(init) then [last] else [])
  }

  lemma {:induction false} FirstOccurrencesMembers(names: seq<string>)
    ensures forall x :: x in FirstOccurrences(names) <==> x in names && x != ""
    decreases |names|
  {
    if names != [] {
      var init := names[..|names| - 1];
      FirstOccurrencesMembers(init);
      assert names == init + [names[|names| - 1]];
    }
  }

  lemma {:induction false} FirstOccurrencesDistinct(names: seq<string>)
    ensures Distinct(FirstOccurrences(names))
    decreases |names|
  {
    if names != [] {
      FirstOccurrencesDistinct(names[..|names| - 1]);
    }
  }

  /** `genreOptions`: no options before the zones are loaded; afterwards each distinct
      non-empty genre once, in the order of the zones, with label and value equal. */
  method GenreOptions(zones: Option<seq<ZoneView>>) returns (options: seq<GenreOption>)
    ensures zones.None? ==> options == []
    ensures zones.Some? ==>
              var names := seq(|zones.value|, i requires 0 <= i < |zones.value| => zones.value[i].genreName);
              |options| == |FirstOccurrences(names)| &&
              forall i | 0 <= i < |options| ::
                options[i].value == FirstOccurrences(names)[i] && options[i].labelText == options[i].value
  {
    if zones.None? {
      return [];
    }
    var data := zones.value;
    ghost var names := seq(|data|, i requires 0 <= i < |data| => data[i].genreName);
    var unique: seq<string> := [];
    for i := 0 to |data|
      invariant unique == FirstOccurrences(names[..i])
    {
      assert names[..i + 1][..i] == names[..i];
      if data[i].genreName != "" && data[i].genreName !in unique {
        unique := unique + [data[i].genreName];
      }
    }
    assert names[..|data|] == names;
    options := [];
    for i := 0 to |unique|
      invariant |options| == i
      invariant forall j | 0 <= j < i :: options[j] == GenreOption(unique[j], unique[j])
    {
      options := options + [GenreOption(unique[i], unique[i])];
    }
  }

  // ---------------------------------------------------------------------------
  // Page state

  /** The page's React state. `currentPage` and `perPage` hold what `parseInt` gave. */
  class IndexState {
    var currentPage: JsInt
    var perPage: JsInt
    var filters: map<string, string>
    var genre: Option<string>

    /** The initial state, from the page's URL. */
    constructor (url: string)
      ensures currentPage == InitialPage(url) && perPage == InitialPerPage(url)
      ensures filters == map[] && genre == None
    {
      currentPage := InitialPage(url);
      perPage := InitialPerPage(url);
      filters := map[];
      genre := None;
    }

    /** The search array sent with the current state. */
    function Search(): seq<string>
      reads this
    {
      SearchFilters(filters, genre)
    }

    /** `handlePageChange` */
    method ChangePage(page: int)
      modifies this
      ensures currentPage == Int(page)
      ensures perPage == old(perPage) && filters == old(filters) && genre == old(genre)
    {
      currentPage := Int(page);
    }

    /** `handlePerPageChange`: the new size, back to page 1. */
    method ChangePerPage(newPerPage: int)
      modifies this
      ensures perPage == Int(newPerPage) && currentPage == Int(1)
      ensures filters == old(filters) && genre == old(genre)
    {
      perPage := Int(newPerPage);
      currentPage := Int(1);
    }

    /** `onFilterChange`: the new filters, back to page 1. */
    method ChangeFilters(newFilters: map<string, string>)
      modifies this
      ensures filters == newFilters && currentPage == Int(1)
      ensures perPage == old(perPage) && genre == old(genre)
    {
      filters := newFilters;
      currentPage := Int(1);
    }

    /** Choosing a genre option: that genre, back to page 1. */
    method SelectGenre(value: string)
      modifies this
      ensures genre == Some(value) && currentPage == Int(1)
      ensures perPage == old(perPage) && filters == old(filters)
    {
      genre := Some(value);
      currentPage := Int(1);
    }

    /** Choosing "all genres": no genre, back to page 1. */
    method SelectAllGenres()
      modifies this
      ensures genre == None && currentPage == Int(1)
      ensures perPage == old(perPage) && filters == old(filters)
      ensures Search()[3] == "null"
    {
      genre := None;
      currentPage := Int(1);
    }
  }
}
