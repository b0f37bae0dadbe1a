/**
 * The time entry entity (src/Entity/TimeEntry.php): its billing arithmetic
 * and its fields, updated in place by setters and by the two ORM lifecycle
 * hooks.  Hours and money are DECIMAL(…, 2) columns, here whole hundredths;
 * the product of billed hours and rate therefore has four decimals and is
 * rounded to two.
 */
module Billing {
  import opened Wrappers
  import opened Calendar
  import opened Domain

  /** Half an hour, in hundredths of an hour. */
  const HalfHour: Hundredths := 50

  /** `ceil($hours * 2) / 2`: the smallest multiple of half an hour that is not below `hours`. */
  function RoundUpToHalfHour(hours: Hundredths): (billed: Hundredths)
    ensures billed % HalfHour == 0
    ensures hours <= billed < hours + HalfHour
  {
    if hours % HalfHour == 0 then hours else hours - hours % HalfHour + HalfHour
  }

  /** No multiple of half an hour lies between the raw hours and the billed hours. */
  lemma RoundUpIsLeast(hours: Hundredths, m: Hundredths)
    requires m % HalfHour == 0 && hours <= m
    ensures RoundUpToHalfHour(hours) <= m
  {
    var b := RoundUpToHalfHour(hours);
    assert b == (b / HalfHour) * HalfHour && m == (m / HalfHour) * HalfHour;
    assert b / HalfHour <= m / HalfHour;
  }

  /** Hours that are already a whole number of half hours are billed as they are. */
  lemma RoundUpKeepsHalfHours(hours: Hundredths)
    requires hours % HalfHour == 0
    ensures RoundUpToHalfHour(hours) == hours
  {
  }

  lemma RoundUpIdempotent(hours: Hundredths)
    ensures RoundUpToHalfHour(RoundUpToHalfHour(hours)) == RoundUpToHalfHour(hours)
  {
    RoundUpKeepsHalfHours(RoundUpToHalfHour(hours));
  }

  lemma RoundUpMonotone(h1: Hundredths, h2: Hundredths)
    requires h1 <= h2
    ensures RoundUpToHalfHour(h1) <= RoundUpToHalfHour(h2)
  {
    RoundUpIsLeast(h1, RoundUpToHalfHour(h2));
  }

  /**
   * `number_format($x, 2, '.', '')` applied to an exact value given in
   * ten-thousandths: the nearest number of hundredths, halves rounded away
   * from zero.
   */
  function RoundToHundredths(tenThousandths: int): (r: Hundredths)
    ensures tenThousandths >= 0 ==> -50 < r * 100 - tenThousandths <= 50
    ensures tenThousandths < 0 ==> -50 <= r * 100 - tenThousandths < 50
  {
    if tenThousandths >= 0 then (tenThousandths + 50) / 100
    else -((-tenThousandths + 50) / 100)
  }

  /** The rounding bounds above leave exactly one candidate. */
  lemma RoundToHundredthsUnique(t: int, r: Hundredths)
    requires t >= 0 ==> -50 < r * 100 - t <= 50
    requires t < 0 ==> -50 <= r * 100 - t < 50
    ensures r == RoundToHundredths(t)
  {
    var q := RoundToHundredths(t);
    assert -100 < (r - q) * 100 < 100;
  }

  /** The billed amount: billed hours times the hourly rate snapshot, rounded to two decimals. */
  function BilledAmount(billedHours: Hundredths, hourlyRate: Hundredths): (amount: Hundredths)
    ensures var exact := billedHours * hourlyRate;
      exact >= 0 ==> -50 < amount * 100 - exact <= 50
  {
    RoundToHundredths(billedHours * hourlyRate)
  }

  /** 1.1 hours are billed as 1.5 hours; at 80.00 per hour that is 120.00. */
  lemma BillingExample()
    ensures RoundUpToHalfHour(110) == 150
    ensures BilledAmount(RoundUpToHalfHour(110), 8000) == 12000
    ensures RoundUpToHalfHour(200) == 200 && RoundUpToHalfHour(1) == 50
  {
  }

  /**
   * The entity object.  Every column is nullable until it is set (the PHP
   * fields are `?T` initialised to null); the ORM assigns `id`.  Nothing in
   * the class keeps billedHours and billedAmount in step with hours: the two
   * calculations only compute, and the setters only store.
   */
  class TimeEntry {
    var id: Option<int>
    var description: Option<string>
    var hours: Option<Hundredths>
    var billedHours: Option<Hundredths>
    var hourlyRateSnapshot: Option<Hundredths>
    var billedAmount: Option<Hundredths>
    var workDate: Option<Date>
    var createdAt: Option<Instant>
    var updatedAt: Option<Instant>
    var ticket: Option<TicketId>
    var createdBy: Option<UserId>
    var organization: Option<OrganizationId>

    constructor ()
      ensures id == None && description == None && hours == None && billedHours == None
      ensures hourlyRateSnapshot == None && billedAmount == None && workDate == None
      ensures createdAt == None && updatedAt == None
      ensures ticket == None && createdBy == None && organization == None
    {
      id, description, hours, billedHours := None, None, None, None;
      hourlyRateSnapshot, billedAmount, workDate := None, None, None;
      createdAt, updatedAt := None, None;
      ticket, createdBy, organization := None, None, None;
    }

    /** `calculateBilledHours()`: a null `hours` reads as 0. */
    function CalculateBilledHours(): (billed: Hundredths)
      reads this
      ensures billed % HalfHour == 0
      ensures hours.GetOr(0) <= billed < hours.GetOr(0) + HalfHour
    {
      RoundUpToHalfHour(hours.GetOr(0))
    }

    /** `calculateBilledAmount()`: uses the stored billed hours and rate snapshot, never the raw hours. */
    function CalculateBilledAmount(): (amount: Hundredths)
      reads this
      ensures var exact := billedHours.GetOr(0) * hourlyRateSnapshot.GetOr(0);
        (exact >= 0 ==> -50 < amount * 100 - exact <= 50)
        && (exact < 0 ==> -50 <= amount * 100 - exact < 50)
    {
      BilledAmount(billedHours.GetOr(0), hourlyRateSnapshot.GetOr(0))
    }

    method SetDescription(description: string)
      modifies this`description
      ensures this.description == Some(description)
    {
      this.description := Some(description);
    }

    /** Changing the raw hours changes neither the stored billed figures nor the billed amount they give. */
    method SetHours(hours: Hundredths)
      modifies this`hours
      ensures this.hours == Some(hours)
      ensures CalculateBilledAmount() == old(CalculateBilledAmount())
    {
      this.hours := Some(hours);
    }

    method SetBilledHours(billedHours: Hundredths)
      modifies this`billedHours
      ensures this.billedHours == Some(billedHours)
      ensures CalculateBilledHours() == old(CalculateBilledHours())
    {
      this.billedHours := Some(billedHours);
    }

    method SetHourlyRateSnapshot(hourlyRateSnapshot: Hundredths)
      modifies this`hourlyRateSnapshot
      ensures this.hourlyRateSnapshot == Some(hourlyRateSnapshot)
    {
      this.hourlyRateSnapshot := Some(hourlyRateSnapshot);
    }

    method SetBilledAmount(billedAmount: Hundredths)
      modifies this`billedAmount
      ensures this.billedAmount == Some(billedAmount)
    {
      this.billedAmount := Some(billedAmount);
    }

    method SetWorkDate(workDate: Date)
      modifies this`workDate
      ensures this.workDate == Some(workDate)
    {
      this.workDate := Some(workDate);
    }

    method SetCreatedAt(createdAt: Instant)
      modifies this`createdAt
      ensures this.createdAt == Some(createdAt)
    {
      this.createdAt := Some(createdAt);
    }

    method SetUpdatedAt(updatedAt: Instant)
      modifies this`updatedAt
      ensures this.updatedAt == Some(updatedAt)
    {
      this.updatedAt := Some(updatedAt);
    }

    method SetTicket(ticket: Option<TicketId>)
      modifies this`ticket
      ensures this.ticket == ticket
    {
      this.ticket := ticket;
    }

    method SetCreatedBy(createdBy: Option<UserId>)
      modifies this`createdBy
      ensures this.createdBy == createdBy
    {
      this.createdBy := createdBy;
    }

    method SetOrganization(organization: Option<OrganizationId>)
      modifies this`organization
      ensures this.organization == organization
    {
      this.organization := organization;
    }

    /**
     * The pre-persist hook.  It reads the clock twice, once per field, so the
     * two instants are separate inputs.
     */
    method SetCreatedAtValue(firstReading: Instant, secondReading: Instant)
      modifies this`createdAt, this`updatedAt
      ensures createdAt == Some(firstReading) && updatedAt == Some(secondReading)
    {
      createdAt := Some(firstReading);
      updatedAt := Some(secondReading);
    }

    /** The pre-update hook: only the update time moves. */
    method SetUpdatedAtValue(now: Instant)
      modifies this`updatedAt
      ensures updatedAt == Some(now)
    {
      updatedAt := Some(now);
    }
  }
}
