/** `LoanController`: returning a loan, and validating a new loan before handing it to
    the store action. */
module LoanController {
  import opened Wrappers
  import opened Seqs
  import opened Loans

  // ---------------------------------------------------------------------------
  // return()

  datatype ReturnError = AlreadyReturned

  /** What `return()` does to a loan's attributes. */
  function ReturnTransition(row: LoanRow, now: int): (r: Result<LoanRow, ReturnError>)
    ensures r.Err? <==> !row.isActive
    ensures r.Ok? ==> r.value == row.(isActive := false, returnDate := Some(now))
  {
    if !row.isActive then Err(AlreadyReturned)
    else Ok(row.(isActive := false, returnDate := Some(now)))
  }

  /** `return()`: an inactive loan is refused and nothing changes; an active one is closed,
      stamped with `now()` and saved. */
  method Return(loan: Loan, table: LoanTable, now: int) returns (r: Result<LoanRow, ReturnError>)
    modifies loan, table
    ensures r == ReturnTransition(old(loan.Row()), now)
    ensures r.Err? ==> loan.Row() == old(loan.Row()) && table.rows == old(table.rows)
    ensures r.Ok? ==> loan.Row() == r.value && table.rows == old(table.rows)[loan.id := r.value]
  {
    if !loan.isActive {
      return Err(AlreadyReturned);
    }
    loan.isActive := false;
    loan.returnDate := Some(now);
    table.Save(loan);
    r := Ok(loan.Row());
  }

  /** The loan's attributes after `return()` was called at each of `times` in turn. */
  function AfterReturns(row: LoanRow, times: seq<int>): LoanRow
    decreases |times|
  {
    if times == [] then row
    else match ReturnTransition(row, times[0])
      case Ok(next) => AfterReturns(next, times[1..])
      case Err(_) => AfterReturns(row, times[1..])
  }

  /** How many of those calls succeeded. */
  function Successes(row: LoanRow, times: seq<int>): nat
    decreases |times|
  {
    if times == [] then 0
    else match ReturnTransition(row, times[0])
      case Ok(next) => 1 + Successes(next, times[1..])
      case Err(_) => Successes(row, times[1..])
  }

  /** An inactive loan never becomes active again through `return()`, and no call changes it. */
  lemma {:induction false} InactiveStaysInactive(row: LoanRow, times: seq<int>)
    requires !row.isActive
    ensures AfterReturns(row, times) == row && Successes(row, times) == 0
    decreases |times|
  {
    if times != [] {
      InactiveStaysInactive(row, times[1..]);
    }
  }

  /** Of any series of calls, only the first can succeed: the loan is returned once and
      `return_date` keeps the time of that first call. */
  lemma {:induction false} ReturnedAtMostOnce(row: LoanRow, times: seq<int>)
    ensures Successes(row, times) <= 1
    ensures Successes(row, times) == (if row.isActive && times != [] then 1 else 0)
    ensures row.isActive && times != [] ==>
              AfterReturns(row, times) == row.(isActive := false, returnDate := Some(times[0]))
    ensures !row.isActive || times == [] ==> AfterReturns(row, times) == row
  {
    if times != [] {
      if row.isActive {
        InactiveStaysInactive(row.(isActive := false, returnDate := Some(times[0])), times[1..]);
      } else {
        InactiveStaysInactive(row, times[1..]);
      }
    }
  }

  // ---------------------------------------------------------------------------
  // store()

  /** The rules of the store request, by field. */
  datatype StoreRule =
    | RequiredRule
    | EmailRule
    | ExistsUserEmail
    | ExistsBookIsbn
    | DateRule
    | AfterTodayRule

  /** What the rules consult: the `users.email` and `books.isbn` columns, the RFC e-mail
      check, PHP's date parsing (to an instant in seconds) and the start of today. */
  datatype Context = Context(
    userEmails: set<string>,
    bookIsbns: set<string>,
    isRfcEmail: string -> bool,
    parseDate: string -> Option<int>,
    today: int)

  /** The characters PHP's `trim` removes. */
  predicate IsTrimmed(c: char) {
    c == ' ' || c == '\t' || c == '\n' || c == '\r' || c == '\0' || c == '\U{000B}'
  }

  /** `required` fails on null, a missing key and a string that trims to "". */
  predicate Blank(v: Option<string>) {
    v.None? || forall i | 0 <= i < |v.value| :: IsTrimmed(v.value[i])
  }

  predicate Passes(rule: StoreRule, value: string, ctx: Context) {
    match rule
    case RequiredRule => !Blank(Some(value))
    case EmailRule => ctx.isRfcEmail(value)
    case ExistsUserEmail => value in ctx.userEmails
    case ExistsBookIsbn => value in ctx.bookIsbns
    case DateRule => ctx.parseDate(value).Some?
    case AfterTodayRule => ctx.parseDate(value).Some? && ctx.parseDate(value).value > ctx.today
  }

  /** The failed rules of one field, in rule order. A blank value fails `required` alone:
      the other rules skip empty values, and validation of the field stops once an implicit
      rule has failed. Without `bail`, every other rule runs. */
  function FieldFailures(value: Option<string>, rules: seq<StoreRule>, ctx: Context): (r: seq<StoreRule>)
    requires |rules| > 0 && rules[0] == RequiredRule
    ensures r == [] <==> !Blank(value) && forall i | 0 <= i < |rules| :: Passes(rules[i], value.value, ctx)
    ensures Blank(value) ==> r == [RequiredRule]
  {
    if Blank(value) then [RequiredRule]
    else
      var failed := Filter(rules, (rule: StoreRule) => !Passes(rule, value.value, ctx));
      FilterEmptyIff(rules, (rule: StoreRule) => !Passes(rule, value.value, ctx));
      failed
  }

  const EmailRules: seq<StoreRule> := [RequiredRule, EmailRule, ExistsUserEmail]
  const IsbnRules: seq<StoreRule> := [RequiredRule, ExistsBookIsbn]
  const DueDateRules: seq<StoreRule> := [RequiredRule, DateRule, AfterTodayRule]

  function Field(request: map<string, string>, key: string): Option<string> {
    if key in request then Some(request[key]) else None
  }

  /** The validator's error bag: the failed rules of each field that failed. */
  datatype Errors = Errors(email: seq<StoreRule>, isbn: seq<StoreRule>, dueDate: seq<StoreRule>)

  function StoreErrors(request: map<string, string>, ctx: Context): Errors {
    Errors(FieldFailures(Field(request, "email"), EmailRules, ctx),
           FieldFailures(Field(request, "isbn"), IsbnRules, ctx),
           FieldFailures(Field(request, "due_date"), DueDateRules, ctx))
  }

  predicate NoErrors(e: Errors) { e.email == [] && e.isbn == [] && e.dueDate == [] }

  lemma EmailAcceptedIff(v: Option<string>, ctx: Context)
    ensures FieldFailures(v, EmailRules, ctx) == [] <==>
              !Blank(v) && ctx.isRfcEmail(v.value) && v.value in ctx.userEmails
  {
    if !Blank(v) {
      assert Passes(EmailRules[1], v.value, ctx) == ctx.isRfcEmail(v.value);
      assert Passes(EmailRules[2], v.value, ctx) == (v.value in ctx.userEmails);
    }
  }

  lemma IsbnAcceptedIff(v: Option<string>, ctx: Context)
    ensures FieldFailures(v, IsbnRules, ctx) == [] <==> !Blank(v) && v.value in ctx.bookIsbns
  {
    if !Blank(v) {
      assert Passes(IsbnRules[1], v.value, ctx) == (v.value in ctx.bookIsbns);
    }
  }

  lemma DueDateAcceptedIff(v: Option<string>, ctx: Context)
    ensures FieldFailures(v, DueDateRules, ctx) == [] <==>
              !Blank(v) && ctx.parseDate(v.value).Some? && ctx.parseDate(v.value).value > ctx.today
  {
    if !Blank(v) {
      assert Passes(DueDateRules[2], v.value, ctx) ==
             (ctx.parseDate(v.value).Some? && ctx.parseDate(v.value).value > ctx.today);
    }
  }

  /** The store request is accepted exactly when the e-mail is present, well formed and a
      user's, the ISBN is present and a book's, and the due date parses to an instant after
      the start of today. */
  lemma StoreAcceptsIff(request: map<string, string>, ctx: Context)
    ensures NoErrors(StoreErrors(request, ctx)) <==>
      ("email" in request && !Blank(Some(request["email"])) &&
       ctx.isRfcEmail(request["email"]) && request["email"] in ctx.userEmails) &&
      ("isbn" in request && !Blank(Some(request["isbn"])) && request["isbn"] in ctx.bookIsbns) &&
      ("due_date" in request && !Blank(Some(request["due_date"])) &&
       ctx.parseDate(request["due_date"]).Some? && ctx.parseDate(request["due_date"]).value > ctx.today)
  {
    EmailAcceptedIff(Field(request, "email"), ctx);
    IsbnAcceptedIff(Field(request, "isbn"), ctx);
    DueDateAcceptedIff(Field(request, "due_date"), ctx);
  }

  /** `$validator->validated()`: the three validated fields and nothing else of the request. */
  datatype ValidatedLoan = ValidatedLoan(email: string, isbn: string, dueDate: string)

  /** The store action, as far as this controller sees it: the inputs it was called with. */
  class LoanStoreAction {
    var calls: seq<ValidatedLoan>

    constructor ()
      ensures calls == []
    {
      calls := [];
    }

    method Invoke(data: ValidatedLoan)
      modifies this
      ensures calls == old(calls) + [data]
    {
      calls := calls + [data];
    }
  }

  /** `store()`: on failure the errors go back and the action is not called; on success the
      action gets the validated fields. */
  method Store(request: map<string, string>, ctx: Context, action: LoanStoreAction) returns (r: Result<ValidatedLoan, Errors>)
    modifies action
    ensures r.Err? <==> !NoErrors(StoreErrors(request, ctx))
    ensures r.Err? ==> r.error == StoreErrors(request, ctx) && action.calls == old(action.calls)
    ensures r.Ok? ==> "email" in request && "isbn" in request && "due_date" in request &&
                      r.value == ValidatedLoan(request["email"], request["isbn"], request["due_date"]) &&
                      action.calls == old(action.calls) + [r.value]
  {
    var errors := StoreErrors(request, ctx);
    if !NoErrors(errors) {
      return Err(errors);
    }
    var data := ValidatedLoan(request["email"], request["isbn"], request["due_date"]);
    action.Invoke(data);
    r := Ok(data);
  }
}
