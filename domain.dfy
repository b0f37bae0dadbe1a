/**
 * The persisted entities of the helpdesk as values (the rows the repositories
 * query and the subscribers receive), the emails the application sends, and
 * the recency order shared by the time-entry and activity listings.
 *
 * Entity references (`$user->getOrganization() === $organization`) are
 * compared by database id: within one request the ORM hands out one object
 * per row, so object identity and id equality agree.
 */
module Domain {
  import opened Wrappers
  import opened Calendar
  import opened Ordering
  import opened Collections

  /** DECIMAL(p, 2) columns (money, hours) as a whole number of hundredths. */
  type Hundredths = int

  /** Timestamps (DATETIME columns, "now") as whole seconds. */
  type Instant = int

  type UserId = int
  type OrganizationId = int
  type TicketId = int

  datatype Organization = Organization(id: OrganizationId, slug: string, isActive: bool, hourlyRate: Hundredths)

  datatype User = User(
    id: UserId,
    organization: OrganizationId,
    alertThresholdEnabled: bool,
    monthlyAlertThreshold: Option<Hundredths>)

  datatype Status = Status(id: int, slug: string)

  datatype Ticket = Ticket(
    id: TicketId,
    organization: OrganizationId,
    status: Status,
    priorityLevel: int,
    createdAt: Instant,
    createdBy: UserId)

  datatype Comment = Comment(id: int, ticket: Ticket, author: UserId)

  /**
   * `ticket_id`, `comment_id` and `uploaded_by_id` are nullable columns: an
   * attachment uploaded with a ticket has its ticket and no comment, one
   * uploaded with a comment its comment and no ticket.
   */
  datatype Attachment = Attachment(id: int, ticket: Option<Ticket>, comment: Option<Comment>, uploadedBy: Option<UserId>)

  /** A committed `time_entry` row. */
  datatype TimeEntryRow = TimeEntryRow(
    id: int,
    ticket: TicketId,
    organization: OrganizationId,
    createdBy: UserId,
    workDate: Date,
    createdAt: Instant,
    hours: Hundredths,
    billedHours: Hundredths,
    hourlyRateSnapshot: Hundredths,
    billedAmount: Hundredths)

  /** A committed `activity` row. */
  datatype Activity = Activity(
    id: int,
    ticket: TicketId,
    organization: OrganizationId,
    createdBy: UserId,
    workDate: Date,
    createdAt: Instant,
    hours: Hundredths)

  /**
   * Who the security token names: nobody, a principal that is not an
   * application `User`, or a `User`.  Whether that user holds ROLE_ADMIN is
   * passed beside it where a decision reads it.
   */
  datatype Principal = Anonymous | OtherPrincipal | AppUser(user: User)

  /** The object an ORM lifecycle event is raised for. */
  datatype Entity =
    | TicketEntity(ticket: Ticket)
    | CommentEntity(comment: Comment)
    | TimeEntryEntity(entry: TimeEntryRow)
    | OtherEntity

  /** The emails the application sends, one value per call into the mail service. */
  datatype Mail =
    | ThresholdExceededAlert(recipient: User, organization: OrganizationId, currentTotal: Hundredths, threshold: Hundredths)
    | TicketCreatedNotification(ticket: TicketId, recipient: User)
    | CommentAddedNotification(comment: int, recipient: User)
    | StatusChangedNotification(ticket: TicketId, recipient: User, oldStatus: Status, newStatus: Status)
    | UserInvitationMail(user: UserId, token: string)

  /** `$organization->getUsers()`: the users whose organization is `org`. */
  function OrganizationUsers(users: seq<User>, org: OrganizationId): (r: seq<User>)
    ensures forall u :: u in r <==> u in users && u.organization == org
  {
    var p := (u: User) => u.organization == org;
    forall u ensures u in Filter(users, p) <==> u in users && p(u) {
      FilterMembership(users, p, u);
    }
    Filter(users, p)
  }

  /** `ORDER BY workDate DESC, createdAt DESC` as an ascending key. */
  function RecencyKey(workDate: Date, createdAt: Instant): seq<int>
  {
    [-workDate.year, -workDate.month, -workDate.day, -createdAt]
  }

  /** Row 1 may be listed before row 2: a later work date, or the same work date and a later or equal creation time. */
  predicate NewerOrSame(workDate1: Date, createdAt1: Instant, workDate2: Date, createdAt2: Instant)
  {
    DateLt(workDate2, workDate1) || (workDate1 == workDate2 && createdAt2 <= createdAt1)
  }

  lemma RecencyKeyOrder(d1: Date, c1: Instant, d2: Date, c2: Instant)
    ensures LexLe(RecencyKey(d1, c1), RecencyKey(d2, c2)) <==> NewerOrSame(d1, c1, d2, c2)
  {
    var k1, k2 := RecencyKey(d1, c1), RecencyKey(d2, c2);
    var a1, a2 := [-d1.month, -d1.day, -c1], [-d2.month, -d2.day, -c2];
    var b1, b2 := [-d1.day, -c1], [-d2.day, -c2];
    assert k1[1..] == a1 && k2[1..] == a2;
    assert a1[1..] == b1 && a2[1..] == b2;
    assert b1[1..] == [-c1] && b2[1..] == [-c2];
    assert LexLe([-c1], [-c2]) <==> -c1 <= -c2 by {
      assert [-c1][1..] == [] && [-c2][1..] == [];
    }
    assert LexLe(b1, b2) <==> -d1.day < -d2.day || (d1.day == d2.day && LexLe([-c1], [-c2]));
    assert LexLe(a1, a2) <==> -d1.month < -d2.month || (d1.month == d2.month && LexLe(b1, b2));
    assert LexLe(k1, k2) <==> -d1.year < -d2.year || (d1.year == d2.year && LexLe(a1, a2));
  }

  /** `r` holds exactly the rows of `rows` that satisfy `p`, each as often as in `rows`. */
  ghost predicate Selects<T(!new)>(r: seq<T>, rows: seq<T>, p: T -> bool)
  {
    forall x :: multiset(r)[x] == if p(x) then multiset(rows)[x] else 0
  }

  /** Every row of `s` may be listed before every row after it. */
  ghost predicate ListedNewestFirst<T>(s: seq<T>, date: T -> Date, created: T -> Instant)
  {
    forall i, j :: 0 <= i < j < |s| ==> NewerOrSame(date(s[i]), created(s[i]), date(s[j]), created(s[j]))
  }

  /** `ORDER BY workDate DESC, createdAt DESC` over `rows`. */
  function NewestFirst<T>(rows: seq<T>, date: T -> Date, created: T -> Instant): (r: seq<T>)
    ensures multiset(r) == multiset(rows)
    ensures ListedNewestFirst(r, date, created)
  {
    var key := (x: T) => RecencyKey(date(x), created(x));
    SortPermutes(rows, key);
    SortSorts(rows, key);
    var r := SortByKey(rows, key);
    forall i, j | 0 <= i < j < |r|
      ensures NewerOrSame(date(r[i]), created(r[i]), date(r[j]), created(r[j]))
    {
      RecencyKeyOrder(date(r[i]), created(r[i]), date(r[j]), created(r[j]));
    }
    r
  }

  /** A `WHERE p ORDER BY workDate DESC, createdAt DESC` query. */
  function RecencyQuery<T(!new)>(rows: seq<T>, p: T -> bool, date: T -> Date, created: T -> Instant): (r: seq<T>)
    ensures Selects(r, rows, p)
    ensures ListedNewestFirst(r, date, created)
  {
    var matching := Filter(rows, p);
    forall x ensures multiset(matching)[x] == if p(x) then multiset(rows)[x] else 0 {
      FilterCount(rows, p, x);
    }
    NewestFirst(matching, date, created)
  }
}
