/** `ZoneResource`: the read-only view of a zone sent to the pages, which shows the number of
    the zone's floor under the name `floor_id`. */
module ZoneResource {
  import opened Wrappers
  import opened Text

  datatype Zone = Zone(id: string, number: int, capacity: int, genreName: string, floorId: string, createdAt: int)

  /** A row of `floors`. */
  datatype Floor = Floor(id: string, floorNumber: int, capacity: int)

  /** The resource's fields; `floorId` holds the floor's number as text. */
  datatype ZoneView = ZoneView(id: string, number: int, capacity: int, genreName: string, floorId: string)

  predicate HasFloor(floors: seq<Floor>, id: string) {
    exists i | 0 <= i < |floors| :: floors[i].id == id
  }

  /** `Floor::find(id)`: the floor with that primary key; `None` (null) if there is none. */
  function FindFloor(floors: seq<Floor>, id: string): (r: Option<Floor>)
    ensures r.Some? <==> HasFloor(floors, id)
    ensures r.Some? ==> r.value in floors && r.value.id == id
  {
    if floors == [] then None
    else if floors[0].id == id then Some(floors[0])
    else
      var r := FindFloor(floors[1..], id);
      assert HasFloor(floors, id) ==> HasFloor(floors[1..], id) by {
        if HasFloor(floors, id) {
          var i :| 0 <= i < |floors| && floors[i].id == id;
          assert floors[1..][i - 1] == floors[i];
        }
      }
      assert HasFloor(floors[1..], id) ==> HasFloor(floors, id) by {
        if HasFloor(floors[1..], id) {
          var i :| 0 <= i < |floors[1..]| && floors[1..][i].id == id;
          assert floors[i + 1] == floors[1..][i];
        }
      }
      r
  }

  /** `fromModel`: undefined (reading `floor_number` of null) when the zone's floor is gone;
      otherwise the zone's id, number, capacity and genre, and the floor's number in
      `floor_id`. */
  function FromModel(zone: Zone, floors: seq<Floor>): (r: Option<ZoneView>)
    ensures r.Some? <==> HasFloor(floors, zone.floorId)
    ensures r.Some? ==> r.value.id == zone.id && r.value.number == zone.number &&
                        r.value.capacity == zone.capacity && r.value.genreName == zone.genreName
    ensures r.Some? ==> exists i | 0 <= i < |floors| ::
                          floors[i].id == zone.floorId && ParseInteger(r.value.floorId) == Some(floors[i].floorNumber)
  {
    match FindFloor(floors, zone.floorId)
    case None => None
    case Some(floor) =>
      ParseIntegerOfIntToString(floor.floorNumber);
      Some(ZoneView(zone.id, zone.number, zone.capacity, zone.genreName, IntToString(floor.floorNumber)))
  }
}
