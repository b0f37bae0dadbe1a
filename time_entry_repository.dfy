/**
 * The time-entry queries (src/Repository/TimeEntryRepository.php) as
 * specifications over the committed rows: a WHERE clause is a filter, an
 * ORDER BY a sort by key, a SUM a sum.  The joins the queries add only
 * preload related objects and do not change which rows are returned.
 */
module TimeEntryRepository {
  import opened Wrappers
  import opened Calendar
  import opened Collections
  import opened Ordering
  import opened Domain

  function WorkDate(e: TimeEntryRow): Date { e.workDate }
  function CreatedAt(e: TimeEntryRow): Instant { e.createdAt }
  function BilledAmountOf(e: TimeEntryRow): Hundredths { e.billedAmount }

  ghost predicate NewestFirstOrder(r: seq<TimeEntryRow>)
  {
    forall i, j :: 0 <= i < j < |r| ==> NewerOrSame(r[i].workDate, r[i].createdAt, r[j].workDate, r[j].createdAt)
  }

  /** `findByTicket`: the ticket's entries, newest work date first. */
  function FindByTicket(rows: seq<TimeEntryRow>, ticket: TicketId): (r: seq<TimeEntryRow>)
    ensures forall e :: multiset(r)[e] == if e.ticket == ticket then multiset(rows)[e] else 0
    ensures NewestFirstOrder(r)
  {
    RecencyQuery(rows, (e: TimeEntryRow) => e.ticket == ticket, WorkDate, CreatedAt)
  }

  /** `findByOrganization`: the organization's entries, newest work date first. */
  function FindByOrganization(rows: seq<TimeEntryRow>, org: OrganizationId): (r: seq<TimeEntryRow>)
    ensures forall e :: multiset(r)[e] == if e.organization == org then multiset(rows)[e] else 0
    ensures NewestFirstOrder(r)
  {
    RecencyQuery(rows, (e: TimeEntryRow) => e.organization == org, WorkDate, CreatedAt)
  }

  /** `findAllOrderedByDate`: every entry, newest work date first. */
  function FindAllOrderedByDate(rows: seq<TimeEntryRow>): (r: seq<TimeEntryRow>)
    ensures multiset(r) == multiset(rows)
    ensures NewestFirstOrder(r)
  {
    NewestFirst(rows, WorkDate, CreatedAt)
  }

  /** The WHERE clause of `findByDateRange`: an absent bound is not applied; present bounds are inclusive. */
  predicate InDateRange(e: TimeEntryRow, startDate: Option<Date>, endDate: Option<Date>, org: Option<OrganizationId>)
  {
    (startDate.None? || DateLe(startDate.value, e.workDate))
    && (endDate.None? || DateLe(e.workDate, endDate.value))
    && (org.None? || e.organization == org.value)
  }

  /** `findByDateRange`: exactly the entries inside the optional bounds, newest work date first. */
  function FindByDateRange(rows: seq<TimeEntryRow>, startDate: Option<Date>, endDate: Option<Date>, org: Option<OrganizationId>)
    : (r: seq<TimeEntryRow>)
    ensures forall e :: multiset(r)[e] == if InDateRange(e, startDate, endDate, org) then multiset(rows)[e] else 0
    ensures NewestFirstOrder(r)
  {
    RecencyQuery(rows, (e: TimeEntryRow) => InDateRange(e, startDate, endDate, org), WorkDate, CreatedAt)
  }

  /** With no bound at all, the range query is the full listing. */
  lemma DateRangeUnbounded(rows: seq<TimeEntryRow>)
    ensures FindByDateRange(rows, None, None, None) == FindAllOrderedByDate(rows)
  {
    FilterAll(rows, (e: TimeEntryRow) => InDateRange(e, None, None, None));
  }

  /** With only an organization, the range query is the organization listing. */
  lemma DateRangeOrganizationOnly(rows: seq<TimeEntryRow>, org: OrganizationId)
    ensures FindByDateRange(rows, None, None, Some(org)) == FindByOrganization(rows, org)
  {
    FilterEquivalent(rows, (e: TimeEntryRow) => InDateRange(e, None, None, Some(org)),
      (e: TimeEntryRow) => e.organization == org);
  }

  /** The rows `calculateMonthlyTotal` adds up. */
  predicate CountsTowardMonth(e: TimeEntryRow, org: OrganizationId, year: int, month: int)
    requires 1 <= month <= 12
  {
    e.organization == org && InMonthWindow(e.workDate, year, month)
  }

  function MonthFilter(org: OrganizationId, year: int, month: int): TimeEntryRow -> bool
    requires 1 <= month <= 12
  {
    (e: TimeEntryRow) => CountsTowardMonth(e, org, year, month)
  }

  /** A row's share of the month's total: its billed amount if it counts toward the month, else 0. */
  function MonthShare(org: OrganizationId, year: int, month: int): TimeEntryRow -> Hundredths
    requires 1 <= month <= 12
  {
    (e: TimeEntryRow) => if CountsTowardMonth(e, org, year, month) then e.billedAmount else 0
  }

  /**
   * `calculateMonthlyTotal`: SUM(billedAmount) over the organization's
   * entries dated from the first to the last day of the month, and 0 when
   * there are none.  An omitted year or month is taken from `today`.
   */
  function CalculateMonthlyTotal(rows: seq<TimeEntryRow>, org: OrganizationId, year: Option<int>, month: Option<int>, today: Date)
    : (total: Hundredths)
    requires month.Some? ==> 1 <= month.value <= 12
    requires month.None? ==> 1 <= today.month <= 12
    ensures total == Sum(rows, MonthShare(org, year.GetOr(today.year), month.GetOr(today.month)))
  {
    var y := year.GetOr(today.year);
    var m := month.GetOr(today.month);
    SumFilter(rows, MonthFilter(org, y, m), BilledAmountOf, MonthShare(org, y, m));
    Sum(Filter(rows, MonthFilter(org, y, m)), BilledAmountOf)
  }

  /** The total over no rows is 0 (`$result ?? 0`). */
  lemma MonthlyTotalNoMatch(rows: seq<TimeEntryRow>, org: OrganizationId, year: int, month: int, today: Date)
    requires 1 <= month <= 12
    requires forall e :: e in rows ==> !CountsTowardMonth(e, org, year, month)
    ensures CalculateMonthlyTotal(rows, org, Some(year), Some(month), today) == 0
  {
    FilterNone(rows, MonthFilter(org, year, month));
  }

  /** One more row adds its billed amount if it counts toward the month, and nothing otherwise. */
  lemma MonthlyTotalAppend(rows: seq<TimeEntryRow>, e: TimeEntryRow, org: OrganizationId, year: int, month: int, today: Date)
    requires 1 <= month <= 12
    ensures CalculateMonthlyTotal(rows + [e], org, Some(year), Some(month), today)
         == CalculateMonthlyTotal(rows, org, Some(year), Some(month), today)
            + (if CountsTowardMonth(e, org, year, month) then e.billedAmount else 0)
  {
    var p := MonthFilter(org, year, month);
    FilterAppend(rows, [e], p);
    assert [e][..0] == [];
    SumAppend(Filter(rows, p), Filter([e], p), BilledAmountOf);
    if p(e) {
      assert Filter([e], p) == [e];
      assert Sum([e], BilledAmountOf) == e.billedAmount by { assert [e][..0] == []; }
    }
  }

  /** The total does not depend on the order of the rows. */
  lemma MonthlyTotalOrderFree(rows: seq<TimeEntryRow>, other: seq<TimeEntryRow>, org: OrganizationId, year: int, month: int, today: Date)
    requires 1 <= month <= 12
    requires multiset(rows) == multiset(other)
    ensures CalculateMonthlyTotal(rows, org, Some(year), Some(month), today)
         == CalculateMonthlyTotal(other, org, Some(year), Some(month), today)
  {
    var p := MonthFilter(org, year, month);
    forall x ensures multiset(Filter(rows, p))[x] == multiset(Filter(other, p))[x] {
      FilterCount(rows, p, x);
      FilterCount(other, p, x);
    }
    assert multiset(Filter(rows, p)) == multiset(Filter(other, p));
    SumPermutation(Filter(rows, p), Filter(other, p), BilledAmountOf);
  }

  /** Without a year and a month the total is the one for the current month. */
  lemma MonthlyTotalDefaultsToToday(rows: seq<TimeEntryRow>, org: OrganizationId, today: Date)
    requires ValidDate(today)
    ensures CalculateMonthlyTotal(rows, org, None, None, today)
         == CalculateMonthlyTotal(rows, org, Some(today.year), Some(today.month), today)
    ensures forall e :: e in rows && ValidDate(e.workDate) && e.organization == org ==>
              (CountsTowardMonth(e, org, today.year, today.month)
               <==> e.workDate.year == today.year && e.workDate.month == today.month)
  {
    forall e | e in rows && ValidDate(e.workDate) && e.organization == org
      ensures CountsTowardMonth(e, org, today.year, today.month) <==> e.workDate.year == today.year && e.workDate.month == today.month
    {
      MonthWindowIsMonth(e.workDate, today.year, today.month);
    }
  }

  /** The monthly total is the sum of billed amounts over the month's date-range listing. */
  lemma MonthlyTotalIsRangeSum(rows: seq<TimeEntryRow>, org: OrganizationId, year: int, month: int, today: Date)
    requires 1 <= month <= 12
    ensures CalculateMonthlyTotal(rows, org, Some(year), Some(month), today)
         == Sum(FindByDateRange(rows, Some(FirstDayOfMonth(year, month)), Some(LastDayOfMonth(year, month)), Some(org)), BilledAmountOf)
  {
    var p := MonthFilter(org, year, month);
    var q := (e: TimeEntryRow) => InDateRange(e, Some(FirstDayOfMonth(year, month)), Some(LastDayOfMonth(year, month)), Some(org));
    FilterEquivalent(rows, p, q);
    var listing := FindByDateRange(rows, Some(FirstDayOfMonth(year, month)), Some(LastDayOfMonth(year, month)), Some(org));
    forall x ensures multiset(listing)[x] == multiset(Filter(rows, q))[x] {
      FilterCount(rows, q, x);
    }
    assert multiset(listing) == multiset(Filter(rows, q));
    SumPermutation(listing, Filter(rows, q), BilledAmountOf);
  }
}
