/**
 * The monthly-threshold alert (src/EventSubscriber/AlertSubscriber.php).
 * After a time entry is inserted or its billed amount is updated, the
 * organization's total for the current calendar month is computed, the total
 * before the change is reconstructed from it, and every subscribed user of
 * the organization whose threshold lies in (previous, current] is sent one
 * alert.  The users, the committed rows and today's date are parameters; the
 * sends are returned as the sequence of emitted mails.
 */
module AlertSubscriber {
  import opened Wrappers
  import opened Calendar
  import opened Collections
  import opened Domain
  import opened TimeEntryRepository

  /** `isAlertThresholdEnabled() && getMonthlyAlertThreshold() !== null`. */
  predicate Subscribed(u: User)
  {
    u.alertThresholdEnabled && u.monthlyAlertThreshold.Some?
  }

  /** `$organization->getUsers()->filter(...)`: the organization's subscribed users, in collection order. */
  function Subscribers(users: seq<User>, org: OrganizationId): (r: seq<User>)
    ensures forall u :: u in r <==> u in users && u.organization == org && Subscribed(u)
  {
    var orgUsers := OrganizationUsers(users, org);
    forall u ensures u in Filter(orgUsers, Subscribed) <==> u in orgUsers && Subscribed(u) {
      FilterMembership(orgUsers, Subscribed, u);
    }
    Filter(orgUsers, Subscribed)
  }

  /** The edge the alert detects: below the threshold before, at or above it now. */
  predicate Crossed(previousTotal: Hundredths, threshold: Hundredths, currentTotal: Hundredths)
  {
    previousTotal < threshold <= currentTotal
  }

  /** Why the check runs: an insert, or an update whose change set holds the old billed amount (possibly null). */
  datatype Trigger = Created | Updated(oldBilledAmount: Option<Hundredths>)

  /** The total before the change, rebuilt from the current total. */
  function PreviousTotal(currentTotal: Hundredths, entry: TimeEntryRow, trigger: Trigger): Hundredths
  {
    match trigger
    case Created => currentTotal - entry.billedAmount
    case Updated(oldAmount) => currentTotal - entry.billedAmount + oldAmount.GetOr(0)
  }

  /** The alert for one user: present iff the user's threshold was crossed. */
  function AlertFor(u: User, org: OrganizationId, previousTotal: Hundredths, currentTotal: Hundredths): seq<Mail>
  {
    match u.monthlyAlertThreshold
    case None => []
    case Some(threshold) =>
      if Crossed(previousTotal, threshold, currentTotal)
      then [ThresholdExceededAlert(u, org, currentTotal, threshold)]
      else []
  }

  /** The mails of the `foreach ($usersWithAlert ...)` loop, user by user. */
  function Alerts(subscribers: seq<User>, org: OrganizationId, previousTotal: Hundredths, currentTotal: Hundredths): seq<Mail>
  {
    if subscribers == [] then []
    else
      Alerts(subscribers[..|subscribers| - 1], org, previousTotal, currentTotal)
      + AlertFor(subscribers[|subscribers| - 1], org, previousTotal, currentTotal)
  }

  /** What `checkThresholdExceeded` sends, given the users, the committed rows and today's date. */
  function ExpectedAlerts(entry: TimeEntryRow, trigger: Trigger, users: seq<User>, store: seq<TimeEntryRow>, today: Date): seq<Mail>
    requires 1 <= today.month <= 12
  {
    var subscribers := Subscribers(users, entry.organization);
    if subscribers == [] then []
    else
      var currentTotal := CalculateMonthlyTotal(store, entry.organization, None, None, today);
      Alerts(subscribers, entry.organization, PreviousTotal(currentTotal, entry, trigger), currentTotal)
  }

  /** The `foreach ($usersWithAlert ...)` loop of `checkThresholdExceeded`. */
  method SendAlerts(usersWithAlert: seq<User>, org: OrganizationId, previousTotal: Hundredths, currentTotal: Hundredths)
    returns (sent: seq<Mail>)
    ensures sent == Alerts(usersWithAlert, org, previousTotal, currentTotal)
  {
    sent := [];
    var i := 0;
    while i < |usersWithAlert|
      invariant 0 <= i <= |usersWithAlert|
      invariant sent == Alerts(usersWithAlert[..i], org, previousTotal, currentTotal)
    {
      var user := usersWithAlert[i];
      assert usersWithAlert[..i + 1][..i] == usersWithAlert[..i];
      ghost var expected := Alerts(usersWithAlert[..i], org, previousTotal, currentTotal)
                            + AlertFor(user, org, previousTotal, currentTotal);
      assert Alerts(usersWithAlert[..i + 1], org, previousTotal, currentTotal) == expected;
      if user.monthlyAlertThreshold.Some? {
        var threshold := user.monthlyAlertThreshold.value;
        if previousTotal < threshold && currentTotal >= threshold {
          sent := sent + [ThresholdExceededAlert(user, org, currentTotal, threshold)];
        }
      }
      i := i + 1;
    }
    assert usersWithAlert[..i] == usersWithAlert;
  }

  /**
   * `checkThresholdExceeded`.  `queried` tells whether the monthly total was
   * computed: it is not when no user of the organization is subscribed.
   */
  method CheckThresholdExceeded(entry: TimeEntryRow, trigger: Trigger, users: seq<User>, store: seq<TimeEntryRow>, today: Date)
    returns (sent: seq<Mail>, queried: bool)
    requires 1 <= today.month <= 12
    ensures queried <==> Subscribers(users, entry.organization) != []
    ensures sent == ExpectedAlerts(entry, trigger, users, store, today)
  {
    var org := entry.organization;
    var usersWithAlert := Subscribers(users, org);
    if usersWithAlert == [] {
      return [], false;
    }
    var currentTotal := CalculateMonthlyTotal(store, org, None, None, today);
    var previousTotal;
    if trigger.Created? {
      previousTotal := currentTotal - entry.billedAmount;
    } else {
      previousTotal := currentTotal - entry.billedAmount + trigger.oldBilledAmount.GetOr(0);
    }
    assert previousTotal == PreviousTotal(currentTotal, entry, trigger);
    sent := SendAlerts(usersWithAlert, org, previousTotal, currentTotal);
    queried := true;
  }

  /** `postPersist`: only a time entry is checked, as a new entry. */
  method PostPersist(entity: Entity, users: seq<User>, store: seq<TimeEntryRow>, today: Date) returns (sent: seq<Mail>)
    requires 1 <= today.month <= 12
    ensures !entity.TimeEntryEntity? ==> sent == []
    ensures entity.TimeEntryEntity? ==> sent == ExpectedAlerts(entity.entry, Created, users, store, today)
  {
    sent := [];
    if entity.TimeEntryEntity? {
      var queried;
      sent, queried := CheckThresholdExceeded(entity.entry, Created, users, store, today);
    }
  }

  /**
   * `postUpdate`: `billedAmountChange` is the change set's `billedAmount`
   * entry, None when the billed amount did not change; its value is the old
   * amount.  The column is NOT NULL, but the entity's property is nullable
   * and the change set carries whatever the property held, so a null old
   * amount stays a case.
   */
  method PostUpdate(entity: Entity, billedAmountChange: Option<Option<Hundredths>>, users: seq<User>, store: seq<TimeEntryRow>, today: Date)
    returns (sent: seq<Mail>)
    requires 1 <= today.month <= 12
    ensures !entity.TimeEntryEntity? || billedAmountChange.None? ==> sent == []
    ensures entity.TimeEntryEntity? && billedAmountChange.Some? ==>
              sent == ExpectedAlerts(entity.entry, Updated(billedAmountChange.value), users, store, today)
  {
    sent := [];
    if entity.TimeEntryEntity? {
      if billedAmountChange.Some? {
        var queried;
        sent, queried := CheckThresholdExceeded(entity.entry, Updated(billedAmountChange.value), users, store, today);
      }
    }
  }

  /** Every alert goes to a listed subscriber whose threshold was crossed, with the current total in it. */
  lemma {:induction false} AlertsSound(subscribers: seq<User>, org: OrganizationId, previousTotal: Hundredths, currentTotal: Hundredths, m: Mail)
    requires m in Alerts(subscribers, org, previousTotal, currentTotal)
    ensures m.ThresholdExceededAlert? && m.recipient in subscribers
    ensures m.organization == org && m.currentTotal == currentTotal
    ensures m.recipient.monthlyAlertThreshold == Some(m.threshold)
    ensures Crossed(previousTotal, m.threshold, currentTotal)
    decreases |subscribers|
  {
    var n := |subscribers| - 1;
    if m in Alerts(subscribers[..n], org, previousTotal, currentTotal) {
      AlertsSound(subscribers[..n], org, previousTotal, currentTotal, m);
    }
  }

  /** A subscriber with a crossed threshold gets the alert. */
  lemma {:induction false} AlertsComplete(subscribers: seq<User>, org: OrganizationId, previousTotal: Hundredths, currentTotal: Hundredths, u: User)
    requires u in subscribers && u.monthlyAlertThreshold.Some?
    requires Crossed(previousTotal, u.monthlyAlertThreshold.value, currentTotal)
    ensures ThresholdExceededAlert(u, org, currentTotal, u.monthlyAlertThreshold.value) in Alerts(subscribers, org, previousTotal, currentTotal)
    decreases |subscribers|
  {
    var n := |subscribers| - 1;
    if subscribers[n] != u {
      assert u in subscribers[..n];
      AlertsComplete(subscribers[..n], org, previousTotal, currentTotal, u);
    }
  }

  /** A subscriber is alerted exactly when their threshold lies in (previous, current]. */
  lemma AlertedIffCrossed(subscribers: seq<User>, org: OrganizationId, previousTotal: Hundredths, currentTotal: Hundredths, u: User)
    requires u in subscribers && u.monthlyAlertThreshold.Some?
    ensures ThresholdExceededAlert(u, org, currentTotal, u.monthlyAlertThreshold.value) in Alerts(subscribers, org, previousTotal, currentTotal)
        <==> Crossed(previousTotal, u.monthlyAlertThreshold.value, currentTotal)
  {
    var m := ThresholdExceededAlert(u, org, currentTotal, u.monthlyAlertThreshold.value);
    if m in Alerts(subscribers, org, previousTotal, currentTotal) {
      AlertsSound(subscribers, org, previousTotal, currentTotal, m);
    } else if Crossed(previousTotal, u.monthlyAlertThreshold.value, currentTotal) {
      AlertsComplete(subscribers, org, previousTotal, currentTotal, u);
    }
  }

  /** A change that did not raise the total alerts no one. */
  lemma NoAlertWithoutIncrease(subscribers: seq<User>, org: OrganizationId, previousTotal: Hundredths, currentTotal: Hundredths)
    requires currentTotal <= previousTotal
    ensures Alerts(subscribers, org, previousTotal, currentTotal) == []
  {
    if Alerts(subscribers, org, previousTotal, currentTotal) != [] {
      AlertsSound(subscribers, org, previousTotal, currentTotal, Alerts(subscribers, org, previousTotal, currentTotal)[0]);
    }
  }

  function RecipientId(m: Mail): UserId
  {
    if m.UserInvitationMail? then m.user else m.recipient.id
  }

  /** Users are distinct members of the organization's collection, so no user is alerted twice in one check. */
  lemma {:induction false} AtMostOneAlertPerUser(subscribers: seq<User>, org: OrganizationId, previousTotal: Hundredths, currentTotal: Hundredths)
    requires Injective(subscribers, (u: User) => u.id)
    ensures Injective(Alerts(subscribers, org, previousTotal, currentTotal), RecipientId)
    decreases |subscribers|
  {
    if subscribers != [] {
      var n := |subscribers| - 1;
      var front := subscribers[..n];
      var last := subscribers[n];
      assert Injective(front, (u: User) => u.id);
      AtMostOneAlertPerUser(front, org, previousTotal, currentTotal);
      var head := Alerts(front, org, previousTotal, currentTotal);
      forall k | 0 <= k < |head| ensures RecipientId(head[k]) != last.id {
        AlertsSound(front, org, previousTotal, currentTotal, head[k]);
        var j :| 0 <= j < n && front[j] == head[k].recipient;
      }
    }
  }

  /** Only users of the entry's organization with alerts enabled and a threshold are ever alerted. */
  lemma OnlySubscribersAlerted(entry: TimeEntryRow, trigger: Trigger, users: seq<User>, store: seq<TimeEntryRow>, today: Date, m: Mail)
    requires 1 <= today.month <= 12
    requires m in ExpectedAlerts(entry, trigger, users, store, today)
    ensures m.ThresholdExceededAlert? && m.recipient in users
    ensures m.recipient.organization == entry.organization && m.organization == entry.organization
    ensures m.recipient.alertThresholdEnabled && m.recipient.monthlyAlertThreshold == Some(m.threshold)
  {
    var subscribers := Subscribers(users, entry.organization);
    var currentTotal := CalculateMonthlyTotal(store, entry.organization, None, None, today);
    AlertsSound(subscribers, entry.organization, PreviousTotal(currentTotal, entry, trigger), currentTotal, m);
  }

  /**
   * For a new entry dated in the current month, the rebuilt previous total is
   * the month's total before the insert.
   */
  lemma PreviousTotalOnCreate(before: seq<TimeEntryRow>, entry: TimeEntryRow, today: Date)
    requires 1 <= today.month <= 12
    requires CountsTowardMonth(entry, entry.organization, today.year, today.month)
    ensures PreviousTotal(CalculateMonthlyTotal(before + [entry], entry.organization, None, None, today), entry, Created)
         == CalculateMonthlyTotal(before, entry.organization, None, None, today)
  {
    MonthlyTotalAppend(before, entry, entry.organization, today.year, today.month, today);
  }

  /**
   * For an update of an entry dated in the current month before and after,
   * the rebuilt previous total is the month's total before the update.
   */
  lemma PreviousTotalOnUpdate(others: seq<TimeEntryRow>, oldRow: TimeEntryRow, newRow: TimeEntryRow, today: Date)
    requires 1 <= today.month <= 12
    requires oldRow.organization == newRow.organization
    requires CountsTowardMonth(oldRow, oldRow.organization, today.year, today.month)
    requires CountsTowardMonth(newRow, newRow.organization, today.year, today.month)
    ensures PreviousTotal(CalculateMonthlyTotal(others + [newRow], newRow.organization, None, None, today), newRow, Updated(Some(oldRow.billedAmount)))
         == CalculateMonthlyTotal(others + [oldRow], oldRow.organization, None, None, today)
  {
    MonthlyTotalAppend(others, newRow, newRow.organization, today.year, today.month, today);
    MonthlyTotalAppend(others, oldRow, oldRow.organization, today.year, today.month, today);
  }

  /** A worked example: one subscriber of organization 7 with a threshold of 100.00, on 10 March 2025. */
  const ExampleToday := Date(2025, 3, 10)
  const ExampleSubscriber := User(1, 7, true, Some(10000))
  /** 150.00 billed on 3 March. */
  const ThisMonthEntry := TimeEntryRow(1, 1, 7, 1, Date(2025, 3, 3), 0, 0, 0, 0, 15000)
  /** 100.00 added later, dated 20 February. */
  const BackdatedEntry := TimeEntryRow(2, 1, 7, 1, Date(2025, 2, 20), 1, 0, 0, 0, 10000)

  lemma ExampleTotals()
    ensures CalculateMonthlyTotal([ThisMonthEntry], 7, None, None, ExampleToday) == 15000
    ensures CalculateMonthlyTotal([ThisMonthEntry, BackdatedEntry], 7, None, None, ExampleToday) == 15000
  {
    assert CountsTowardMonth(ThisMonthEntry, 7, 2025, 3);
    assert !CountsTowardMonth(BackdatedEntry, 7, 2025, 3);
    MonthlyTotalNoMatch([], 7, 2025, 3, ExampleToday);
    assert [ThisMonthEntry] == [] + [ThisMonthEntry];
    MonthlyTotalAppend([], ThisMonthEntry, 7, 2025, 3, ExampleToday);
    assert [ThisMonthEntry, BackdatedEntry] == [ThisMonthEntry] + [BackdatedEntry];
    MonthlyTotalAppend([ThisMonthEntry], BackdatedEntry, 7, 2025, 3, ExampleToday);
  }

  lemma ExampleSubscribers()
    ensures Subscribers([ExampleSubscriber], 7) == [ExampleSubscriber]
  {
    var s := Subscribers([ExampleSubscriber], 7);
    assert ExampleSubscriber in s;
    assert |s| <= 1;
  }

  /**
   * The window is the clock's month, not the entry's: a back-dated entry is
   * subtracted from a total it is not part of.  With 150.00 already billed
   * this month (the alert at 100.00 already sent), adding 100.00 dated last
   * month alerts again although this month's total did not move.
   */
  lemma BackdatedEntryAlertsAgain()
    ensures CalculateMonthlyTotal([ThisMonthEntry, BackdatedEntry], 7, None, None, ExampleToday)
         == CalculateMonthlyTotal([ThisMonthEntry], 7, None, None, ExampleToday)
    ensures ExpectedAlerts(BackdatedEntry, Created, [ExampleSubscriber], [ThisMonthEntry, BackdatedEntry], ExampleToday)
         == [ThresholdExceededAlert(ExampleSubscriber, 7, 15000, 10000)]
  {
    ExampleTotals();
    ExampleSubscribers();
    assert PreviousTotal(15000, BackdatedEntry, Created) == 5000;
    assert Alerts([ExampleSubscriber], 7, 5000, 15000) == [ThresholdExceededAlert(ExampleSubscriber, 7, 15000, 10000)] by {
      assert [ExampleSubscriber][..0] == [];
    }
  }

  /** The update scenario: 40.00 raised to 70.00 with 40.00 elsewhere: 80.00 before, 110.00 now, alert at 100.00. */
  lemma UpdateScenario()
    ensures var e := TimeEntryRow(2, 1, 7, 1, Date(2025, 3, 5), 0, 0, 0, 0, 7000);
      PreviousTotal(11000, e, Updated(Some(4000))) == 8000 && Crossed(8000, 10000, 11000)
  {
  }
}
