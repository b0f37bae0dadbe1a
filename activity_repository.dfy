/**
 * The activity queries (src/Repository/ActivityRepository.php): the same
 * filters and the same `workDate DESC, createdAt DESC` order as the
 * time-entry listings, over the `activity` rows.
 */
module ActivityRepository {
  import opened Wrappers
  import opened Calendar
  import opened Collections
  import opened Domain

  function WorkDate(a: Activity): Date { a.workDate }
  function CreatedAt(a: Activity): Instant { a.createdAt }

  ghost predicate NewestFirstOrder(r: seq<Activity>)
  {
    forall i, j :: 0 <= i < j < |r| ==> NewerOrSame(r[i].workDate, r[i].createdAt, r[j].workDate, r[j].createdAt)
  }

  /** `findByTicket`: exactly the ticket's activities, newest work date first. */
  function FindByTicket(rows: seq<Activity>, ticket: TicketId): (r: seq<Activity>)
    ensures forall a :: multiset(r)[a] == if a.ticket == ticket then multiset(rows)[a] else 0
    ensures NewestFirstOrder(r)
  {
    RecencyQuery(rows, (a: Activity) => a.ticket == ticket, WorkDate, CreatedAt)
  }

  /** `findByOrganization`: exactly the organization's activities, newest work date first. */
  function FindByOrganization(rows: seq<Activity>, org: OrganizationId): (r: seq<Activity>)
    ensures forall a :: multiset(r)[a] == if a.organization == org then multiset(rows)[a] else 0
    ensures NewestFirstOrder(r)
  {
    RecencyQuery(rows, (a: Activity) => a.organization == org, WorkDate, CreatedAt)
  }

  /** `findAllOrderedByDate`: a permutation of all activities, newest work date first. */
  function FindAllOrderedByDate(rows: seq<Activity>): (r: seq<Activity>)
    ensures multiset(r) == multiset(rows)
    ensures NewestFirstOrder(r)
  {
    NewestFirst(rows, WorkDate, CreatedAt)
  }

  /** The WHERE clause of `findByDateRange`: an absent bound is not applied; present bounds are inclusive. */
  predicate InDateRange(a: Activity, startDate: Option<Date>, endDate: Option<Date>, org: Option<OrganizationId>)
  {
    (startDate.None? || DateLe(startDate.value, a.workDate))
    && (endDate.None? || DateLe(a.workDate, endDate.value))
    && (org.None? || a.organization == org.value)
  }

  /** `findByDateRange`: exactly the activities inside the optional bounds, newest work date first. */
  function FindByDateRange(rows: seq<Activity>, startDate: Option<Date>, endDate: Option<Date>, org: Option<OrganizationId>)
    : (r: seq<Activity>)
    ensures forall a :: multiset(r)[a] == if InDateRange(a, startDate, endDate, org) then multiset(rows)[a] else 0
    ensures NewestFirstOrder(r)
  {
    RecencyQuery(rows, (a: Activity) => InDateRange(a, startDate, endDate, org), WorkDate, CreatedAt)
  }

  /** With every argument null, the range query is the full listing, row for row. */
  lemma DateRangeUnbounded(rows: seq<Activity>)
    ensures FindByDateRange(rows, None, None, None) == FindAllOrderedByDate(rows)
  {
    FilterAll(rows, (a: Activity) => InDateRange(a, None, None, None));
  }

  /** With only an organization, the range query is the organization listing, row for row. */
  lemma DateRangeOrganizationOnly(rows: seq<Activity>, org: OrganizationId)
    ensures FindByDateRange(rows, None, None, Some(org)) == FindByOrganization(rows, org)
  {
    FilterEquivalent(rows, (a: Activity) => InDateRange(a, None, None, Some(org)),
      (a: Activity) => a.organization == org);
  }
}
