/** The `floors` table: a UUID primary key, a unique integer `floor_number` and an integer
    `capacity`, all NOT NULL. */
module FloorsTable {
  import opened Wrappers
  import opened SqlTypes

  datatype FloorRow = FloorRow(floorNumber: int, capacity: int)

  datatype InsertError = DuplicateId | DuplicateFloorNumber | OutOfRange

  /** What the table's constraints guarantee of its rows. */
  ghost predicate ValidRows(rows: map<string, FloorRow>) {
    (forall id | id in rows :: IsInteger(rows[id].floorNumber) && IsInteger(rows[id].capacity)) &&
    (forall a, b | a in rows && b in rows && a != b :: rows[a].floorNumber != rows[b].floorNumber)
  }

  predicate NumberTaken(rows: map<string, FloorRow>, n: int) {
    exists id | id in rows :: rows[id].floorNumber == n
  }

  /** `INSERT INTO floors`: a value outside `integer` cannot be stored; a taken id violates
      the primary key and a taken floor number the unique index; otherwise the row is added. */
  function Inserted(rows: map<string, FloorRow>, id: string, row: FloorRow): (r: Result<map<string, FloorRow>, InsertError>)
    ensures r.Ok? <==> IsInteger(row.floorNumber) && IsInteger(row.capacity) && id !in rows && !NumberTaken(rows, row.floorNumber)
    ensures r.Ok? ==> r.value == rows[id := row]
    ensures ValidRows(rows) && r.Ok? ==> ValidRows(r.value)
  {
    if !IsInteger(row.floorNumber) || !IsInteger(row.capacity) then Err(OutOfRange)
    else if id in rows then Err(DuplicateId)
    else if NumberTaken(rows, row.floorNumber) then Err(DuplicateFloorNumber)
    else Ok(rows[id := row])
  }

  /** No series of inserts, accepted or rejected, ever gives two floors the same number. */
  lemma {:induction false} InsertsKeepNumbersUnique(rows: map<string, FloorRow>, inserts: seq<(string, FloorRow)>)
    requires ValidRows(rows)
    ensures ValidRows(AfterInserts(rows, inserts))
    decreases |inserts|
  {
    if inserts != [] {
      var next := Inserted(rows, inserts[0].0, inserts[0].1);
      if next.Ok? {
        InsertsKeepNumbersUnique(next.value, inserts[1..]);
      } else {
        InsertsKeepNumbersUnique(rows, inserts[1..]);
      }
    }
  }

  /** The table after trying each insert in turn. */
  function AfterInserts(rows: map<string, FloorRow>, inserts: seq<(string, FloorRow)>): map<string, FloorRow>
    decreases |inserts|
  {
    if inserts == [] then rows
    else match Inserted(rows, inserts[0].0, inserts[0].1)
      case Ok(next) => AfterInserts(next, inserts[1..])
      case Err(_) => AfterInserts(rows, inserts[1..])
  }

  class Floors {
    var rows: map<string, FloorRow>

    ghost predicate Valid()
      reads this
    {
      ValidRows(rows)
    }

    constructor ()
      ensures Valid() && rows == map[]
    {
      rows := map[];
    }

    /** Inserts a floor; a rejected insert leaves the table as it was. */
    method Insert(id: string, row: FloorRow) returns (r: Result<(), InsertError>)
      requires Valid()
      modifies this
      ensures Valid()
      ensures r.Ok? <==> Inserted(old(rows), id, row).Ok?
      ensures r.Ok? ==> rows == Inserted(old(rows), id, row).value
      ensures r.Err? ==> rows == old(rows) && r.error == Inserted(old(rows), id, row).error
    {
      if !IsInteger(row.floorNumber) || !IsInteger(row.capacity) {
        return Err(OutOfRange);
      }
      if id in rows {
        return Err(DuplicateId);
      }
      if exists k | k in rows :: rows[k].floorNumber == row.floorNumber {
        return Err(DuplicateFloorNumber);
      }
      rows := rows[id := row];
      r := Ok(());
    }
  }
}
