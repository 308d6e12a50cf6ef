/** The zone form: number, capacity, floor and genre fields, the floor picker, the genre
    picker, and the URLs it visits. JavaScript's `Number(value)` is the parameter `toNumber`
    (`None` for NaN). */
module ZoneForm {
  import opened Wrappers
  import opened Text
  import opened Validation
  import opened QueryParams

  /** `number`: empty is `required`, NaN is `integer`; there is no lower bound. */
  function ValidateNumber(value: string, toNumber: string -> Option<real>): (r: Verdict)
    ensures r == Valid <==> value != "" && toNumber(value).Some?
    ensures r == Invalid(Required) <==> value == ""
    ensures r == Invalid(IntegerFormat) <==> value != "" && toNumber(value).None?
  {
    var checks := [Check(value != "", Required), Check(toNumber(value).Some?, IntegerFormat)];
    assert |checks| == 2 && checks[0].passes == (value != "") && checks[1].passes == toNumber(value).Some?;
    FirstFailure(checks)
  }

  /** `capacity`: empty is `required`, NaN is `integer`, a number not above 0 is `min` (1). */
  function ValidateCapacity(value: string, toNumber: string -> Option<real>): (r: Verdict)
    ensures r == Valid <==> value != "" && toNumber(value).Some? && toNumber(value).value > 0.0
    ensures r == Invalid(Required) <==> value == ""
    ensures r == Invalid(IntegerFormat) <==> value != "" && toNumber(value).None?
    ensures r == Invalid(MinValue(1)) <==> value != "" && toNumber(value).Some? && toNumber(value).value <= 0.0
  {
    var n := toNumber(value);
    var checks := [Check(value != "", Required), Check(n.Some?, IntegerFormat),
                   Check(n.Some? && n.value > 0.0, MinValue(1))];
    assert |checks| == 3 && checks[0].passes == (value != "") && checks[1].passes == n.Some? &&
           checks[2].passes == (n.Some? && n.value > 0.0);
    FirstFailure(checks)
  }

  /** A floor as the picker lists it. */
  datatype FloorOption = FloorOption(id: string, floorNumber: int, zonesCount: int, capacity: int)

  /** `floors.some(floor => floor.id === value)` */
  predicate Listed(floors: seq<FloorOption>, value: string) {
    exists i | 0 <= i < |floors| :: floors[i].id == value
  }

  /** `validateFloorId`: empty is `required`, an id no listed floor has is `invalid_selection`. */
  function ValidateFloorId(value: string, floors: seq<FloorOption>): (r: Verdict)
    ensures r == Valid <==> value != "" && Listed(floors, value)
    ensures r == Invalid(Required) <==> value == ""
    ensures r == Invalid(InvalidSelection) <==> value != "" && !Listed(floors, value)
  {
    var checks := [Check(value != "", Required), Check(Listed(floors, value), InvalidSelection)];
    assert |checks| == 2 && checks[0].passes == (value != "") && checks[1].passes == Listed(floors, value);
    FirstFailure(checks)
  }

  /** A floor whose zones fill its capacity is shown but cannot be picked. */
  predicate OptionDisabled(floor: FloorOption) {
    floor.zonesCount >= floor.capacity
  }

  /** An entry of the floor picker; `labelText` is what it shows. */
  datatype SelectItem = SelectItem(value: string, labelText: string, disabled: bool)

  /** `${floorLabel} ${floor_number} ` followed by ` -- zones_count/capacity`. */
  function FloorItemLabel(floorLabel: string, floor: FloorOption): string {
    floorLabel + " " + IntToString(floor.floorNumber) + " " + " -- " +
    IntToString(floor.zonesCount) + "/" + IntToString(floor.capacity)
  }

  /** The picker's entries: one disabled "loading" entry while the floors load, otherwise
      one entry per floor, in order, disabled when the floor is full. `floorLabel` and
      `loadingText` are the translated texts. */
  function FloorItems(floors: seq<FloorOption>, loading: bool, floorLabel: string, loadingText: string): (r: seq<SelectItem>)
    ensures loading ==> r == [SelectItem("loading", loadingText, true)]
    ensures !loading ==> |r| == |floors|
    ensures !loading ==>
              forall i | 0 <= i < |r| ::
                r[i].value == floors[i].id && r[i].labelText == FloorItemLabel(floorLabel, floors[i]) &&
                (r[i].disabled <==> floors[i].zonesCount >= floors[i].capacity)
  {
    if loading then [SelectItem("loading", loadingText, true)]
    else seq(|floors|, i requires 0 <= i < |floors| =>
               SelectItem(floors[i].id, FloorItemLabel(floorLabel, floors[i]), OptionDisabled(floors[i])))
  }

  /** What can be picked: nothing while loading; afterwards an entry can be picked exactly
      when its floor has room for another zone, and a picked non-empty id then validates. */
  lemma {:induction false} PickableFloorsHaveRoom(floors: seq<FloorOption>, loading: bool, floorLabel: string, loadingText: string)
    ensures var items := FloorItems(floors, loading, floorLabel, loadingText);
            (loading ==> forall k | 0 <= k < |items| :: items[k].disabled) &&
            (!loading ==> forall k | 0 <= k < |items| ::
                            (!items[k].disabled <==> floors[k].zonesCount < floors[k].capacity) &&
                            (!items[k].disabled && items[k].value != "" ==> ValidateFloorId(items[k].value, floors) == Valid))
  {
    var items := FloorItems(floors, loading, floorLabel, loadingText);
    if !loading {
      forall k | 0 <= k < |items| && !items[k].disabled && items[k].value != ""
        ensures ValidateFloorId(items[k].value, floors) == Valid
      {
        assert floors[k].id == items[k].value;
      }
    }
  }

  /** The validator does not repeat that rule: the id of a full floor, once in the field,
      is accepted. */
  lemma FullFloorPassesValidation(floors: seq<FloorOption>, i: nat)
    requires i < |floors| && floors[i].id != "" && OptionDisabled(floors[i])
    ensures ValidateFloorId(floors[i].id, floors) == Valid
  {
    assert Listed(floors, floors[i].id);
  }

  /** The genre picker's `onSelect`: picking the current genre clears it, any other sets it. */
  function ToggleGenre(current: string, picked: string): (r: string)
    ensures picked == current ==> r == ""
    ensures picked != current ==> r == picked
  {
    if picked == current then "" else picked
  }

  /** `genre_name`: empty is `required`. */
  function ValidateGenre(value: string): (r: Verdict)
    ensures r == Valid <==> value != ""
    ensures r != Valid ==> r == Invalid(Required)
  {
    if value == "" then Invalid(Required) else Valid
  }

  /** Picking a genre leaves a valid field exactly when it was not the one already chosen;
      picking it again brings the field back. */
  lemma ToggleGenreThenValidate(current: string, picked: string)
    requires picked != ""
    ensures ValidateGenre(ToggleGenre(current, picked)) == Valid <==> picked != current
    ensures ToggleGenre(ToggleGenre(current, picked), picked) == (if picked == current then current else "")
  {
  }

  const ZonesPath: string := "/zones"

  /** PUT `/zones/{id}` when editing, POST `/zones` otherwise. */
  function SubmitTarget(editedId: Option<string>): (r: Submission)
    ensures r.verb == Put <==> editedId.Some?
    ensures r.verb == Put ==> r.path == ZonesPath + "/" + editedId.value && r.path[7..] == editedId.value
    ensures r.verb == Post ==> r.path == ZonesPath
  {
    match editedId
    case Some(id) => Submission(Put, ZonesPath + "/" + id)
    case None => Submission(Post, ZonesPath)
  }

  /** What the zone index reads from the URL visited after saving or on cancel (both are
      built the same way): with a page, both values; without one, a `per_page` alone ends
      up in the path and is lost. */
  lemma ReturnUrlReadBack(page: Option<string>, perPage: Option<string>)
    requires SafeOption(page) && SafeOption(perPage)
    ensures var url := FlatReturnUrl(ZonesPath, page, perPage);
            (Truthy(page) ==>
               PathOf(url) == ZonesPath && SearchParam(url, "page") == page &&
               SearchParam(url, "per_page") == (if Truthy(perPage) then perPage else None)) &&
            (!Truthy(page) && Truthy(perPage) ==>
               PathOf(url) == ZonesPath + "&per_page=" + perPage.value &&
               SearchParam(url, "per_page") == None) &&
            (!Truthy(page) && !Truthy(perPage) ==> url == ZonesPath)
  {
    if Truthy(page) {
      FlatReturnUrlWithPage(ZonesPath, page, perPage);
      QueryParams.ReturnUrlReadBack(ZonesPath, page, perPage);
    } else if Truthy(perPage) {
      FlatReturnUrlDropsPerPage(ZonesPath, perPage);
    }
  }
}
