/** `LoanUpdateAction`: fills a loan instance from the request data and returns the
    reloaded record. The `save()` call is commented out in the action, so the filled
    attributes never reach the table. */
module LoanUpdateAction {
  import opened Wrappers
  import opened Loans

  /** The request data; `None` for `is_active` / `is_late` covers both a missing key and null. */
  datatype UpdateData = UpdateData(
    userId: string,
    bookId: string,
    dueDate: string,
    isActive: Option<bool>,
    isLate: Option<bool>)

  /** PHP `??`: the left side unless it is missing or null (`false` is kept). */
  function Coalesce<T>(given: Option<T>, current: T): T {
    if given.Some? then given.value else current
  }

  /** The attributes `fill()` assigns. `is_late` is offered too, but it is not among the
      model's `$fillable` attributes, so `fill()` silently discards it. */
  function Filled(row: LoanRow, data: UpdateData): (r: LoanRow)
    ensures r.userId == data.userId && r.bookId == data.bookId && r.dueDate == data.dueDate
    ensures data.isActive.None? ==> r.isActive == row.isActive
    ensures data.isActive.Some? ==> r.isActive == data.isActive.value
    ensures r.isLate == row.isLate
    ensures r.returnDate == row.returnDate
  {
    row.(userId := data.userId, bookId := data.bookId, dueDate := data.dueDate,
         isActive := Coalesce(data.isActive, row.isActive))
  }

  /** A supplied `is_late` never reaches the instance: the fill is the same as without it. */
  lemma SuppliedIsLateDiscarded(row: LoanRow, data: UpdateData, late: bool)
    ensures Filled(row, data.(isLate := Some(late))) == Filled(row, data.(isLate := None))
    ensures Filled(row, data.(isLate := Some(late))).isLate == row.isLate
  {
  }

  /** Filling twice with the same data is filling once. */
  lemma FilledIdempotent(row: LoanRow, data: UpdateData)
    ensures Filled(Filled(row, data), data) == Filled(row, data)
  {
  }

  /** Nothing in the fill prevents an update from reopening a returned loan. */
  lemma FillCanReactivate(row: LoanRow, data: UpdateData)
    requires !row.isActive && data.isActive == Some(true)
    ensures Filled(row, data).isActive && Filled(row, data).returnDate == row.returnDate
  {
  }

  datatype UpdateError = LoanMissing

  /** `__invoke`: the instance now holds the filled attributes, the table is as it was, and
      the result is the stored row read back by `fresh()`, not the filled one. */
  method Update(loan: Loan, data: UpdateData, table: LoanTable) returns (r: Result<LoanRow, UpdateError>)
    modifies loan
    ensures loan.Row() == Filled(old(loan.Row()), data)
    ensures r.Ok? <==> loan.id in table.rows
    ensures r.Ok? ==> r.value == table.rows[loan.id]
    ensures unchanged(table)
  {
    loan.userId := data.userId;
    loan.bookId := data.bookId;
    loan.dueDate := data.dueDate;
    loan.isActive := Coalesce(data.isActive, loan.isActive);
    var reloaded := table.Fresh(loan);
    r := if reloaded.Some? then Ok(reloaded.value) else Err(LoanMissing);
  }
}
