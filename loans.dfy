/** The `loans` table and the Eloquent `Loan` model instance that is read from it,
    changed in memory and written back by `save()`. */
module Loans {
  import opened Wrappers

  /** A stored row of `loans`; `returnDate` is the instant `return()` writes, in seconds. */
  datatype LoanRow = LoanRow(
    userId: string,
    bookId: string,
    dueDate: string,
    isActive: bool,
    isLate: Option<bool>,
    returnDate: Option<int>)

  /** A model instance: attributes the code assigns one by one. */
  class Loan {
    const id: string
    var userId: string
    var bookId: string
    var dueDate: string
    var isActive: bool
    var isLate: Option<bool>
    var returnDate: Option<int>

    /** The instance as `Loan::find(id)` hydrates it from a row. */
    constructor (id: string, row: LoanRow)
      ensures this.id == id && Row() == row
    {
      this.id := id;
      userId, bookId, dueDate := row.userId, row.bookId, row.dueDate;
      isActive, isLate, returnDate := row.isActive, row.isLate, row.returnDate;
    }

    /** The attributes as `save()` would write them. */
    function Row(): LoanRow
      reads this
    {
      LoanRow(userId, bookId, dueDate, isActive, isLate, returnDate)
    }
  }

  /** The rows of `loans` by primary key. */
  class LoanTable {
    var rows: map<string, LoanRow>

    constructor (rows: map<string, LoanRow>)
      ensures this.rows == rows
    {
      this.rows := rows;
    }

    /** `$loan->save()`: the row under the instance's key becomes its attributes. */
    method Save(loan: Loan)
      modifies this
      ensures rows == old(rows)[loan.id := loan.Row()]
    {
      rows := rows[loan.id := loan.Row()];
    }

    /** `$loan->fresh()`: the stored row, re-read; `None` (null) once it is gone. */
    method Fresh(loan: Loan) returns (r: Option<LoanRow>)
      ensures r.Some? <==> loan.id in rows
      ensures r.Some? ==> r.value == rows[loan.id]
    {
      r := if loan.id in rows then Some(rows[loan.id]) else None;
    }
  }
}
