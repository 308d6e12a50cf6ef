/** The loan form: its field validators, its default values, where it submits and where it
    goes afterwards. */
module LoanForm {
  import opened Wrappers
  import opened Text
  import opened Validation
  import opened QueryParams

  /** `isbn`: empty is `required`; anything but decimal digits (`/^\d+$/`) is `numeric`. */
  function ValidateIsbn(value: string): (r: Verdict)
    ensures r == Valid <==> value != "" && AllDigits(value)
    ensures r == Invalid(Required) <==> value == ""
    ensures r == Invalid(Numeric) <==> value != "" && !AllDigits(value)
  {
    var checks := [Check(value != "", Required), Check(AllDigits(value), Numeric)];
    assert |checks| == 2 && checks[0].passes == (value != "") && checks[1].passes == AllDigits(value);
    FirstFailure(checks)
  }

  /** `due_date`: empty is `required`, a string `parseISO` rejects is `date`, an instant not
      after `now` is `after_today`. `parseIso` gives the parsed instant, `None` when invalid. */
  function ValidateDueDate(value: string, parseIso: string -> Option<int>, now: int): (r: Verdict)
    ensures r == Valid <==> value != "" && parseIso(value).Some? && parseIso(value).value > now
    ensures r == Invalid(Required) <==> value == ""
    ensures r == Invalid(DateFormat) <==> value != "" && parseIso(value).None?
    ensures r == Invalid(AfterToday) <==> value != "" && parseIso(value).Some? && parseIso(value).value <= now
  {
    var parsed := parseIso(value);
    var checks := [Check(value != "", Required), Check(parsed.Some?, DateFormat),
                   Check(parsed.Some? && parsed.value > now, AfterToday)];
    assert |checks| == 3 && checks[0].passes == (value != "") && checks[1].passes == parsed.Some? &&
           checks[2].passes == (parsed.Some? && parsed.value > now);
    FirstFailure(checks)
  }

  /** The loan being edited; `dueDateIso` is `due_date.toISOString()`. */
  datatype InitialLoan = InitialLoan(id: Option<int>, email: string, isbn: string, dueDateIso: Option<string>)

  datatype LoanValues = LoanValues(email: string, isbn: string, dueDate: string)

  /** `defaultValues`: empty strings for a new loan; the edited loan's e-mail, ISBN and the
      part of its ISO due date before the first `T`. */
  function DefaultValues(initial: Option<InitialLoan>): (r: LoanValues)
    ensures initial.None? ==> r == LoanValues("", "", "")
    ensures initial.Some? ==> r.email == initial.value.email && r.isbn == initial.value.isbn
    ensures initial.Some? && initial.value.dueDateIso.None? ==> r.dueDate == ""
    ensures initial.Some? && initial.value.dueDateIso.Some? ==> r.dueDate <= initial.value.dueDateIso.value
  {
    match initial
    case None => LoanValues("", "", "")
    case Some(d) =>
      LoanValues(d.email, d.isbn, if d.dueDateIso.Some? then Split(d.dueDateIso.value, "T")[0] else "")
  }

  /** The part before `T` of an ISO timestamp is its calendar date. */
  lemma DefaultDueDateIsDate(initial: InitialLoan, date: string, time: string)
    requires 'T' !in date && initial.dueDateIso == Some(date + "T" + time)
    ensures DefaultValues(Some(initial)).dueDate == date
  {
    SingleCharClean(date, 'T');
    FirstOccurrenceAfterCleanPart(date, "T", time);
    var s := date + "T" + time;
    assert s[..|date|] == date;
  }

  const LoansPath: string := "/loans"

  /** PUT `/loans/{id}` when the edited loan has a truthy `id`, POST `/loans` otherwise
      (an `id` of 0 is falsy). */
  function SubmitTarget(initial: Option<InitialLoan>): (r: Submission)
    ensures r.verb == Put <==> initial.Some? && initial.value.id.Some? && initial.value.id.value != 0
    ensures r.verb == Post ==> r.path == LoansPath
    ensures r.verb == Put ==> |r.path| > 7 && r.path[..7] == "/loans/" &&
                              ParseInteger(r.path[7..]) == Some(initial.value.id.value)
  {
    if initial.Some? && initial.value.id.Some? && initial.value.id.value != 0 then
      var path := LoansPath + "/" + IntToString(initial.value.id.value);
      ParseIntegerOfIntToString(initial.value.id.value);
      assert path[7..] == IntToString(initial.value.id.value);
      Submission(Put, path)
    else Submission(Post, LoansPath)
  }

  /** What the loan index reads from the URL the form visits after saving: with a page,
      both values; without one, a `per_page` alone ends up in the path and is lost. */
  lemma ReturnUrlReadBack(page: Option<string>, perPage: Option<string>)
    requires SafeOption(page) && SafeOption(perPage)
    ensures var url := FlatReturnUrl(LoansPath, page, perPage);
            (Truthy(page) ==>
               PathOf(url) == LoansPath && SearchParam(url, "page") == page &&
               SearchParam(url, "per_page") == (if Truthy(perPage) then perPage else None)) &&
            (!Truthy(page) && Truthy(perPage) ==>
               PathOf(url) == LoansPath + "&per_page=" + perPage.value &&
               SearchParam(url, "per_page") == None) &&
            (!Truthy(page) && !Truthy(perPage) ==> url == LoansPath)
  {
    if Truthy(page) {
      FlatReturnUrlWithPage(LoansPath, page, perPage);
      QueryParams.ReturnUrlReadBack(LoansPath, page, perPage);
    } else if Truthy(perPage) {
      FlatReturnUrlDropsPerPage(LoansPath, perPage);
    }
  }
}
