/** The user's loan and reservation history: records filtered by an optional day range,
    tagged with their kind, merged newest first, and drawn with a colour by status.
    An `expedit` timestamp is the instant it denotes, in seconds; a missing or empty
    one is `None`. */
module TimeLine {
  import opened Wrappers
  import opened Text
  import opened Seqs
  import opened Sorting

  datatype Loan = Loan(
    id: int,
    title: string,
    expedit: Option<int>,
    /** The loan's `return` field: when the book came back, if it did. */
    returned: Option<string>,
    deletedAt: Option<string>,
    isOverdue: Option<bool>)

  datatype Reservation = Reservation(
    id: int,
    title: string,
    expedit: Option<int>,
    deletedAt: Option<string>)

  datatype Kind = LoanKind | ReservationKind

  /** A record with its `type` tag; a reservation has neither `return` nor `is_overdue`. */
  datatype Item = Item(
    kind: Kind,
    id: int,
    title: string,
    expedit: Option<int>,
    returned: Option<string>,
    deletedAt: Option<string>,
    isOverdue: Option<bool>)

  // ---------------------------------------------------------------------------
  // Filtering by day range

  const SecondsPerDay: int := 86400

  /** `startDate` and `endDate` as day numbers; `None` when the prop is falsy. */
  datatype DateRange = DateRange(startDay: Option<int>, endDay: Option<int>)

  predicate Unbounded(range: DateRange) { range.startDay.None? && range.endDay.None? }

  /** `${startDate}T00:00:00` */
  function DayStart(day: int): int { day * SecondsPerDay }

  /** `${endDate}T23:59:59` */
  function DayEnd(day: int): int { day * SecondsPerDay + SecondsPerDay - 1 }

  /** The test applied to each record once a bound is given. */
  predicate Keeps(range: DateRange, expedit: Option<int>) {
    expedit.Some? &&
    (range.startDay.None? || expedit.value >= DayStart(range.startDay.value)) &&
    (range.endDay.None? || expedit.value <= DayEnd(range.endDay.value))
  }

  /** `filterByDateRange`: the input itself without bounds, otherwise the records that pass `Keeps`. */
  function FilterByDateRange<T>(items: seq<T>, expedit: T -> Option<int>, range: DateRange): (r: seq<T>)
    ensures Subseq(r, items)
    ensures Unbounded(range) ==> r == items
    ensures !Unbounded(range) ==> forall i | 0 <= i < |r| :: expedit(r[i]).Some?
    ensures !Unbounded(range) ==>
              forall i | 0 <= i < |items| :: items[i] in r <==> Keeps(range, expedit(items[i]))
    ensures multiset(r) <= multiset(items)
    ensures !Unbounded(range) ==>
              forall i | 0 <= i < |items| ::
                multiset(r)[items[i]] == if Keeps(range, expedit(items[i])) then multiset(items)[items[i]] else 0
  {
    if Unbounded(range) then
      SubseqRefl(items);
      items
    else
      var keep := (x: T) => Keeps(range, expedit(x));
      FilterIsSubseq(items, keep);
      FilterMultiset(items, keep);
      forall i | 0 <= i < |items|
        ensures multiset(Filter(items, keep))[items[i]] == if keep(items[i]) then multiset(items)[items[i]] else 0
      {
        FilterCount(items, keep, items[i]);
      }
      Filter(items, keep)
  }

  // ---------------------------------------------------------------------------
  // Tagging

  function FromLoan(l: Loan): Item {
    Item(LoanKind, l.id, l.title, l.expedit, l.returned, l.deletedAt, l.isOverdue)
  }

  function FromReservation(r: Reservation): Item {
    Item(ReservationKind, r.id, r.title, r.expedit, None, r.deletedAt, None)
  }

  /** `.map((l) => ({ ...l, type: 'loan' }))` */
  function TagLoans(loans: seq<Loan>): (r: seq<Item>)
    ensures |r| == |loans|
    ensures forall i | 0 <= i < |r| ::
              r[i].kind == LoanKind && r[i].id == loans[i].id && r[i].expedit == loans[i].expedit &&
              r[i].returned == loans[i].returned && r[i].deletedAt == loans[i].deletedAt &&
              r[i].isOverdue == loans[i].isOverdue && r[i].title == loans[i].title
  {
    seq(|loans|, i requires 0 <= i < |loans| => FromLoan(loans[i]))
  }

  /** `.map((r) => ({ ...r, type: 'reservation' }))` */
  function TagReservations(rs: seq<Reservation>): (r: seq<Item>)
    ensures |r| == |rs|
    ensures forall i | 0 <= i < |r| ::
              r[i].kind == ReservationKind && r[i].id == rs[i].id && r[i].expedit == rs[i].expedit &&
              r[i].deletedAt == rs[i].deletedAt && r[i].title == rs[i].title &&
              r[i].returned.None? && r[i].isOverdue.None?
  {
    seq(|rs|, i requires 0 <= i < |rs| => FromReservation(rs[i]))
  }

  function FilteredLoans(loans: seq<Loan>, range: DateRange): seq<Item> {
    TagLoans(FilterByDateRange(loans, (l: Loan) => l.expedit, range))
  }

  function FilteredReservations(rs: seq<Reservation>, range: DateRange): seq<Item> {
    TagReservations(FilterByDateRange(rs, (r: Reservation) => r.expedit, range))
  }

  // ---------------------------------------------------------------------------
  // The combined timeline

  /** `new Date(expedit ?? 0).getTime()`: an undated record counts as the epoch. */
  function SortKey(item: Item): int { item.expedit.GetOr(0) }

  /** `[...filteredLoans, ...filteredReservations].sort((a, b) => dateB - dateA)` */
  function Combined(loans: seq<Loan>, rs: seq<Reservation>, range: DateRange): (r: seq<Item>)
    ensures SortedDesc(r, SortKey)
    ensures multiset(r) == multiset(FilteredLoans(loans, range) + FilteredReservations(rs, range))
  {
    SortDesc(FilteredLoans(loans, range) + FilteredReservations(rs, range), SortKey)
  }

  /** No record dated after the epoch comes after an undated one. */
  lemma UndatedLast(loans: seq<Loan>, rs: seq<Reservation>, range: DateRange)
    ensures var r := Combined(loans, rs, range);
            forall i, j | 0 <= i < j < |r| && r[i].expedit.None? :: r[j].expedit.None? || r[j].expedit.value <= 0
  {
    var r := Combined(loans, rs, range);
    forall i, j | 0 <= i < j < |r| && r[i].expedit.None?
      ensures r[j].expedit.None? || r[j].expedit.value <= 0
    {
      assert SortKey(r[i]) == 0 && SortKey(r[i]) >= SortKey(r[j]);
    }
  }

  /** Records with the same timestamp keep their order, loans before reservations. */
  lemma {:induction false} TiesKeepOrder(loans: seq<Loan>, rs: seq<Reservation>, range: DateRange, t: int)
    ensures Filter(Combined(loans, rs, range), KeyIs(SortKey, t))
         == Filter(FilteredLoans(loans, range), KeyIs(SortKey, t)) +
            Filter(FilteredReservations(rs, range), KeyIs(SortKey, t))
  {
    var a, b := FilteredLoans(loans, range), FilteredReservations(rs, range);
    SortKeepsTies(a + b, SortKey, t);
    FilterAppend(a, b, KeyIs(SortKey, t));
  }

  /** With no bounds the timeline holds every record, undated ones included. */
  lemma {:induction false} UnboundedKeepsAll(loans: seq<Loan>, rs: seq<Reservation>)
    ensures |Combined(loans, rs, DateRange(None, None))| == |loans| + |rs|
  {
    var r := Combined(loans, rs, DateRange(None, None));
    var all := FilteredLoans(loans, DateRange(None, None)) + FilteredReservations(rs, DateRange(None, None));
    assert |multiset(r)| == |multiset(all)|;
  }

  // ---------------------------------------------------------------------------
  // Presentation by status

  /** A record's state as the colours tell it. */
  datatype Status = Cancelled | Returned | Overdue | Active | Reserved

  predicate IsTrue(b: Option<bool>) { b == Some(true) }

  function StatusOf(item: Item): Status {
    if Truthy(item.deletedAt) then Cancelled
    else if item.kind == ReservationKind then Reserved
    else if Truthy(item.returned) then Returned
    else if IsTrue(item.isOverdue) then Overdue
    else Active
  }

  datatype DotColor = Grey | Primary | Error | Success
  datatype DotVariant = Outlined | Filled

  function StatusColor(s: Status): DotColor {
    match s
    case Cancelled => Grey
    case Returned => Primary
    case Overdue => Error
    case Active => Success
    case Reserved => Primary
  }

  /** `RecordDot`'s colour. */
  function DotColorOf(item: Item): (c: DotColor)
    ensures c == StatusColor(StatusOf(item))
  {
    if Truthy(item.deletedAt) then Grey
    else if item.kind == LoanKind then
      if Truthy(item.returned) then Primary
      else if IsTrue(item.isOverdue) then Error
      else Success
    else Primary
  }

  /** `RecordDot`'s variant. */
  function DotVariantOf(item: Item): (v: DotVariant)
    ensures v == Outlined <==> StatusOf(item) == Cancelled
  {
    if Truthy(item.deletedAt) then Outlined else Filled
  }

  datatype CardBackground = Gray | Red | Blue | Purple

  /** `RecordCard`'s border and background: it does not look at `return`. */
  function CardBackgroundOf(item: Item): (b: CardBackground)
    ensures match StatusOf(item)
            case Cancelled => b == Gray
            case Reserved => b == Purple
            case Overdue => b == Red
            case Active => b == Blue
            case Returned => b == (if IsTrue(item.isOverdue) then Red else Blue)
  {
    if Truthy(item.deletedAt) then Gray
    else if item.kind == LoanKind then
      if IsTrue(item.isOverdue) then Red else Blue
    else Purple
  }

  /** A returned loan still flagged overdue: primary dot, red card. */
  lemma ReturnedOverdueDisagree()
    ensures var item := Item(LoanKind, 1, "t", Some(0), Some("2025-04-01"), None, Some(true));
            DotColorOf(item) == Primary && CardBackgroundOf(item) == Red
  {
  }
}
