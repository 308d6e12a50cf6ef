/** The `bookcases` table: a UUID primary key, integer `number` and `capacity`, and a
    `zone_id` that must name a row of `zones` and whose zone's deletion deletes the bookcase. */
module BookcasesTable {
  import opened Wrappers
  import opened SqlTypes

  datatype BookcaseRow = BookcaseRow(number: int, capacity: int, zoneId: string)

  datatype InsertError = DuplicateId | UnknownZone | OutOfRange

  /** Every bookcase stands in an existing zone and fits the column types. */
  ghost predicate ValidRows(zones: set<string>, rows: map<string, BookcaseRow>) {
    forall id | id in rows ::
      rows[id].zoneId in zones && IsInteger(rows[id].number) && IsInteger(rows[id].capacity)
  }

  function Inserted(zones: set<string>, rows: map<string, BookcaseRow>, id: string, row: BookcaseRow): (r: Result<map<string, BookcaseRow>, InsertError>)
    ensures r.Ok? <==> IsInteger(row.number) && IsInteger(row.capacity) && id !in rows && row.zoneId in zones
    ensures r.Ok? ==> r.value == rows[id := row]
    ensures ValidRows(zones, rows) && r.Ok? ==> ValidRows(zones, r.value)
  {
    if !IsInteger(row.number) || !IsInteger(row.capacity) then Err(OutOfRange)
    else if id in rows then Err(DuplicateId)
    else if row.zoneId !in zones then Err(UnknownZone)
    else Ok(rows[id := row])
  }

  /** `cascadeOnDelete()`: the bookcases left when `zone` is deleted. */
  function Cascade(rows: map<string, BookcaseRow>, zone: string): (r: map<string, BookcaseRow>)
    ensures forall id | id in r :: id in rows && r[id] == rows[id] && r[id].zoneId != zone
    ensures forall id | id in rows && rows[id].zoneId != zone :: id in r
  {
    map id | id in rows && rows[id].zoneId != zone :: rows[id]
  }

  /** Deleting a zone keeps every remaining bookcase in an existing zone. */
  lemma CascadeKeepsIntegrity(zones: set<string>, rows: map<string, BookcaseRow>, zone: string)
    requires ValidRows(zones, rows)
    ensures ValidRows(zones - {zone}, Cascade(rows, zone))
  {
  }

  /** Deleting the zone of no bookcase removes no bookcase. */
  lemma CascadeOfEmptyZone(rows: map<string, BookcaseRow>, zone: string)
    requires forall id | id in rows :: rows[id].zoneId != zone
    ensures Cascade(rows, zone) == rows
  {
  }

  class Bookcases {
    /** The primary keys of `zones`. */
    var zones: set<string>
    var rows: map<string, BookcaseRow>

    ghost predicate Valid()
      reads this
    {
      ValidRows(zones, rows)
    }

    constructor ()
      ensures Valid() && zones == {} && rows == map[]
    {
      zones, rows := {}, map[];
    }

    /** A new zone row (the `zones` table is not part of this model beyond its keys). */
    method AddZone(zone: string)
      requires Valid()
      modifies this
      ensures Valid() && zones == old(zones) + {zone} && rows == old(rows)
    {
      zones := zones + {zone};
    }

    /** Inserts a bookcase; a rejected insert leaves the table as it was. */
    method Insert(id: string, row: BookcaseRow) returns (r: Result<(), InsertError>)
      requires Valid()
      modifies this
      ensures Valid() && zones == old(zones)
      ensures r.Ok? <==> Inserted(old(zones), old(rows), id, row).Ok?
      ensures r.Ok? ==> rows == Inserted(old(zones), old(rows), id, row).value
      ensures r.Err? ==> rows == old(rows) && r.error == Inserted(old(zones), old(rows), id, row).error
    {
      if !IsInteger(row.number) || !IsInteger(row.capacity) {
        return Err(OutOfRange);
      }
      if id in rows {
        return Err(DuplicateId);
      }
      if row.zoneId !in zones {
        return Err(UnknownZone);
      }
      rows := rows[id := row];
      r := Ok(());
    }

    /** Deletes a zone and, by the cascade, every bookcase in it. */
    method DeleteZone(zone: string)
      requires Valid()
      modifies this
      ensures Valid()
      ensures zones == old(zones) - {zone}
      ensures rows == Cascade(old(rows), zone)
    {
      CascadeKeepsIntegrity(zones, rows, zone);
      zones := zones - {zone};
      rows := map id | id in rows && rows[id].zoneId != zone :: rows[id];
    }
  }
}
