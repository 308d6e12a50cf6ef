/** `ZoneIndexAction`: the zone list filtered by a four-slot search array
    `[number, capacity, genre, floor]`, newest first, each zone shown through its resource.
    A slot holding the text "null" switches its filter off; a slot holding PHP null keeps
    it on with a null operand. */
module ZoneIndexAction {
  import opened Wrappers
  import opened Text
  import opened Seqs
  import opened Sorting
  import opened ZoneResource
  import opened SqlTypes

  datatype SearchError =
    | NullSearch         // `$search[i]` with no search array at all (array offset on null)
    | UndefinedOffset    // `$search[i]` on a missing slot
    | InvalidInteger     // an `integer` column compared with text it cannot take: not an
                         // integer literal, or outside the column's 32-bit range
    | FloorOfZoneMissing // the resource reads `floor_number` of a floor that is gone

  const NumberSlot: nat := 0
  const CapacitySlot: nat := 1
  const GenreSlot: nat := 2
  const FloorSlot: nat := 3

  /** The filter on an integer column. `where(col, '=', null)` becomes `whereNull`, which no
      row of these NOT NULL columns satisfies. */
  datatype IntCriterion = AnyInt | NoInt | IntIs(n: int)

  /** `ILIKE '%' . genre . '%'`; with a null genre the pattern is `%%`, which every name matches. */
  datatype GenreCriterion = AnyGenre | GenreContains(part: string)

  /** The filter on `floor_id`: off, or equal to the id of the floor found (`None`: no floor
      was found, and `floor_id = null` holds for no zone). */
  datatype FloorCriterion = AnyFloor | FloorIs(id: Option<string>)

  datatype Criteria = Criteria(number: IntCriterion, capacity: IntCriterion, genre: GenreCriterion, floor: FloorCriterion)

  /** The value PostgreSQL reads from integer text bound against an `integer` column;
      `None` when it rejects the text. */
  function IntegerValue(s: string): (r: Option<int>)
    ensures r.Some? ==> IsInteger(r.value) && ParseInteger(s) == r
    ensures r.None? ==> ParseInteger(s).None? || !IsInteger(ParseInteger(s).value)
  {
    match ParseInteger(s)
    case Some(n) => if IsInteger(n) then Some(n) else None
    case None => None
  }

  function IntCriterionOf(slot: Option<string>): Result<IntCriterion, SearchError> {
    match slot
    case None => Ok(NoInt)
    case Some(s) =>
      if s == "null" then Ok(AnyInt)
      else match IntegerValue(s)
        case Some(n) => Ok(IntIs(n))
        case None => Err(InvalidInteger)
  }

  function GenreCriterionOf(slot: Option<string>): GenreCriterion {
    match slot
    case None => GenreContains("")
    case Some(s) => if s == "null" then AnyGenre else GenreContains(s)
  }

  /** `Floor::query()->where('floor_number', '=', $floor)->first()`: the first floor in
      table order with that number. */
  function FirstFloorNumbered(floors: seq<Floor>, n: int): (r: Option<Floor>)
    ensures r.Some? ==> r.value in floors && r.value.floorNumber == n
    ensures r.None? ==> forall i | 0 <= i < |floors| :: floors[i].floorNumber != n
  {
    if floors == [] then None
    else if floors[0].floorNumber == n then Some(floors[0])
    else
      var r := FirstFloorNumbered(floors[1..], n);
      assert forall i | 1 <= i < |floors| :: floors[i] == floors[1..][i - 1];
      r
  }

  function FloorCriterionOf(slot: Option<string>, floors: seq<Floor>): Result<FloorCriterion, SearchError> {
    match slot
    case None => Ok(FloorIs(None))
    case Some(s) =>
      if s == "null" then Ok(AnyFloor)
      else match IntegerValue(s)
        case None => Err(InvalidInteger)
        case Some(n) =>
          match FirstFloorNumbered(floors, n)
          case None => Ok(FloorIs(None))
          case Some(f) => Ok(FloorIs(Some(f.id)))
  }

  /** A slot an `integer` column can be compared with: null, the text "null", or an integer
      literal whose value fits the column. */
  predicate IntSlotOk(slot: Option<string>) {
    slot.None? || slot.value == "null" ||
    (ParseInteger(slot.value).Some? && IsInteger(ParseInteger(slot.value).value))
  }

  /** The decimal text of an integer is accepted in an integer slot exactly when the value
      fits PostgreSQL's `integer`. */
  lemma IntegerTextAcceptedIff(n: int)
    ensures IntSlotOk(Some(IntToString(n))) <==> IsInteger(n)
  {
    ParseIntegerOfIntToString(n);
    if n < 0 {
      assert IntToString(n)[0] == '-';
    }
  }

  /** Decoding: slot 0 number, slot 1 capacity, slot 2 genre, slot 3 floor; the floor query
      runs first. A missing slot fails before any query; text in an integer slot that is not
      an integer literal, or is one outside the `integer` range, fails the query it reaches;
      the genre slot never fails. */
  function CriteriaOf(search: seq<Option<string>>, floors: seq<Floor>): (r: Result<Criteria, SearchError>)
    ensures |search| < 4 ==> r == Err(UndefinedOffset)
    ensures |search| >= 4 ==>
              (r.Ok? <==> IntSlotOk(search[NumberSlot]) && IntSlotOk(search[CapacitySlot]) && IntSlotOk(search[FloorSlot]))
    ensures |search| >= 4 && r.Err? ==> r == Err(InvalidInteger)
    ensures r.Ok? ==> r.value.genre == GenreCriterionOf(search[GenreSlot])
  {
    if |search| < 4 then Err(UndefinedOffset)
    else match FloorCriterionOf(search[FloorSlot], floors)
      case Err(e) => Err(e)
      case Ok(floor) =>
        match IntCriterionOf(search[NumberSlot])
        case Err(e) => Err(e)
        case Ok(number) =>
          match IntCriterionOf(search[CapacitySlot])
          case Err(e) => Err(e)
          case Ok(capacity) => Ok(Criteria(number, capacity, GenreCriterionOf(search[GenreSlot]), floor))
  }

  predicate IntMatches(c: IntCriterion, v: int) {
    match c
    case AnyInt => true
    case NoInt => false
    case IntIs(n) => v == n
  }

  /** Case-insensitive containment, for ASCII letters. */
  predicate GenreMatches(c: GenreCriterion, name: string) {
    match c
    case AnyGenre => true
    case GenreContains(part) => Contains(Lower(name), Lower(part))
  }

  predicate FloorMatches(c: FloorCriterion, floorId: string) {
    match c
    case AnyFloor => true
    case FloorIs(id) => id == Some(floorId)
  }

  /** The `when` clauses together: every active filter must hold. */
  predicate Matches(c: Criteria, z: Zone) {
    IntMatches(c.number, z.number) && IntMatches(c.capacity, z.capacity) &&
    GenreMatches(c.genre, z.genreName) && FloorMatches(c.floor, z.floorId)
  }

  function CreatedAt(z: Zone): int { z.createdAt }

  /** The zones the query returns, `latest()` first. */
  function MatchingZones(search: seq<Option<string>>, zones: seq<Zone>, floors: seq<Floor>): (r: Result<seq<Zone>, SearchError>)
    ensures r.Ok? <==> CriteriaOf(search, floors).Ok?
    ensures r.Ok? ==> SortedDesc(r.value, CreatedAt)
    ensures r.Ok? ==> forall i | 0 <= i < |r.value| :: r.value[i] in zones && Matches(CriteriaOf(search, floors).value, r.value[i])
    ensures r.Ok? ==> forall i | 0 <= i < |zones| && Matches(CriteriaOf(search, floors).value, zones[i]) :: zones[i] in r.value
    ensures r.Ok? ==>
              multiset(r.value) == multiset(Filter(zones, (z: Zone) => Matches(CriteriaOf(search, floors).value, z)))
  {
    match CriteriaOf(search, floors)
    case Err(e) => Err(e)
    case Ok(c) =>
      var kept := Filter(zones, (z: Zone) => Matches(c, z));
      SortDescSameElements(kept, CreatedAt);
      Ok(SortDesc(kept, CreatedAt))
  }

  /** `->through(fn($zone) => ZoneResource::fromModel($zone))` */
  function Project(zones: seq<Zone>, floors: seq<Floor>): (r: Result<seq<ZoneView>, SearchError>)
    ensures r.Ok? <==> forall i | 0 <= i < |zones| :: HasFloor(floors, zones[i].floorId)
    ensures r.Ok? ==> |r.value| == |zones| &&
                      forall i | 0 <= i < |zones| :: Some(r.value[i]) == FromModel(zones[i], floors)
  {
    if forall i | 0 <= i < |zones| :: HasFloor(floors, zones[i].floorId) then
      Ok(seq(|zones|, i requires 0 <= i < |zones| => FromModel(zones[i], floors).value))
    else Err(FloorOfZoneMissing)
  }

  /** `__invoke`, without pagination; `None` is a request without a `search` parameter.
      It succeeds exactly when the search decodes and every matching zone's floor exists,
      and then lists the resource of each matching zone, newest first. */
  function Search(search: Option<seq<Option<string>>>, zones: seq<Zone>, floors: seq<Floor>): (r: Result<seq<ZoneView>, SearchError>)
    ensures search.None? ==> r == Err(NullSearch)
    ensures search.Some? ==>
              (r.Ok? <==> CriteriaOf(search.value, floors).Ok? &&
                          forall i | 0 <= i < |zones| && Matches(CriteriaOf(search.value, floors).value, zones[i]) ::
                            HasFloor(floors, zones[i].floorId))
    ensures r.Ok? ==>
              var found := MatchingZones(search.value, zones, floors).value;
              SortedDesc(found, CreatedAt) &&
              multiset(found) == multiset(Filter(zones, (z: Zone) => Matches(CriteriaOf(search.value, floors).value, z))) &&
              |r.value| == |found| && forall i | 0 <= i < |found| :: Some(r.value[i]) == FromModel(found[i], floors)
  {
    match search
    case None => Err(NullSearch)
    case Some(s) =>
      match MatchingZones(s, zones, floors)
      case Err(e) => Err(e)
      case Ok(found) => Project(found, floors)
  }

  /** The decoded search, stated on the raw slots: a zone is listed exactly when each slot
      is "null" or agrees with the zone, slot 0 on its number, slot 1 on its capacity,
      slot 2 on its genre and slot 3 on the number of its floor. */
  lemma {:induction false} MatchesIff(search: seq<Option<string>>, floors: seq<Floor>, z: Zone)
    requires CriteriaOf(search, floors).Ok?
    ensures Matches(CriteriaOf(search, floors).value, z) <==>
      (search[0] == Some("null") || (search[0].Some? && ParseInteger(search[0].value) == Some(z.number))) &&
      (search[1] == Some("null") || (search[1].Some? && ParseInteger(search[1].value) == Some(z.capacity))) &&
      (search[2] == Some("null") || Contains(Lower(z.genreName), Lower(search[2].GetOr("")))) &&
      (search[3] == Some("null") ||
        (search[3].Some? && ParseInteger(search[3].value).Some? &&
         FirstFloorNumbered(floors, ParseInteger(search[3].value).value).Some? &&
         FirstFloorNumbered(floors, ParseInteger(search[3].value).value).value.id == z.floorId))
  {
    var c := CriteriaOf(search, floors).value;
    assert c.number == IntCriterionOf(search[0]).value;
    assert c.capacity == IntCriterionOf(search[1]).value;
    assert c.genre == GenreCriterionOf(search[2]);
    assert c.floor == FloorCriterionOf(search[3], floors).value;
    if search[2].None? {
      assert Contains(Lower(z.genreName), Lower("")) by {
        assert OccursAt(Lower(""), Lower(z.genreName), 0);
      }
    }
  }

  /** A search with every slot "null" lists every zone. */
  lemma AllNullListsEverything(zones: seq<Zone>, floors: seq<Floor>)
    ensures var s := [Some("null"), Some("null"), Some("null"), Some("null")];
            MatchingZones(s, zones, floors).Ok? &&
            multiset(MatchingZones(s, zones, floors).value) == multiset(zones)
  {
    var s := [Some("null"), Some("null"), Some("null"), Some("null")];
    var c := Criteria(AnyInt, AnyInt, AnyGenre, AnyFloor);
    assert s[3] == Some("null") && s[0] == Some("null") && s[1] == Some("null") && s[2] == Some("null");
    assert FloorCriterionOf(s[3], floors) == Ok(AnyFloor);
    assert IntCriterionOf(s[0]) == Ok(AnyInt) && IntCriterionOf(s[1]) == Ok(AnyInt);
    assert GenreCriterionOf(s[2]) == AnyGenre;
    assert CriteriaOf(s, floors) == Ok(c);
    var keep := (z: Zone) => Matches(c, z);
    FilterKeepsAll(zones, keep);
    var sorted := SortDesc(Filter(zones, keep), CreatedAt);
    assert MatchingZones(s, zones, floors) == Ok(sorted);
  }
}
