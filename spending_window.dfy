/**
 * `getEarliestFirstOfMonthWithin90Days` of `calculateIncomeAndSpending.js`:
 * the first day of the fetch window of one account.
 *
 * The rule compares the first of the account's creation month with a cutoff
 * 90 days before an anchor day, and falls back to the first of the cutoff's
 * month when the creation month starts earlier. The code anchors the cutoff
 * at the creation date itself, so the fallback can never be taken; the
 * evidently intended anchor is the time of the run.
 */
module SpendingWindow {
  import opened Calendar

  /** How far back the window may reach, in days. */
  const LookbackDays := 90

  /**
   * The window rule with its cutoff anchored at `anchor`: the first of
   * `createdAt`'s month when that day is not before the cutoff, otherwise the
   * first of the cutoff's month.
   */
  function WindowStart(createdAt: Date, anchor: Date): (start: Date)
    requires Valid(createdAt) && Valid(anchor)
    ensures Valid(start) && start.day == 1
  {
    var cutoff := AddDays(anchor, -LookbackDays);
    var firstOfCurrentMonth := FirstOfMonth(createdAt);
    if DayNumber(firstOfCurrentMonth) >= DayNumber(cutoff) then firstOfCurrentMonth
    else FirstOfMonth(cutoff)
  }

  /** The code as written: the cutoff is 90 days before `createdAt` itself. */
  function GetEarliestFirstOfMonthWithin90Days(createdAt: Date): (start: Date)
    requires Valid(createdAt)
    ensures Valid(start) && start.day == 1
  {
    WindowStart(createdAt, createdAt)
  }

  /**
   * As written, the result is always the first of the creation month: that day
   * is at most 30 days before `createdAt`, the cutoff 90, so the fallback is dead.
   */
  lemma AsWrittenIsCreationMonth(createdAt: Date)
    requires Valid(createdAt)
    ensures GetEarliestFirstOfMonthWithin90Days(createdAt) == FirstOfMonth(createdAt)
    ensures DayNumber(FirstOfMonth(createdAt)) > DayNumber(AddDays(createdAt, -LookbackDays))
  {
  }

  /** The corrected rule: the cutoff is 90 days before the time of the run, `now`. */
  function ComputeWindowStart(createdAt: Date, now: Date): (start: Date)
    requires Valid(createdAt) && Valid(now)
    ensures Valid(start) && start.day == 1
  {
    WindowStart(createdAt, now)
  }

  /**
   * The corrected window never reaches further back than the first of the
   * month 90 days before `now`, and it is either that day or the first of the
   * creation month.
   */
  lemma WindowStartBounds(createdAt: Date, now: Date)
    requires Valid(createdAt) && Valid(now)
    ensures var start, cutoff := ComputeWindowStart(createdAt, now), AddDays(now, -LookbackDays);
      && DayNumber(start) >= DayNumber(FirstOfMonth(cutoff))
      && (start == FirstOfMonth(createdAt) || start == FirstOfMonth(cutoff))
  {
    var cutoff := AddDays(now, -LookbackDays);
    assert DayNumber(FirstOfMonth(cutoff)) <= DayNumber(cutoff);
  }

  /**
   * For an account created more than 120 days before the run, the code's
   * window starts earlier than the corrected rule allows: it reaches back
   * past the first of the month 90 days before `now`.
   */
  lemma AsWrittenReachesTooFarBack(createdAt: Date, now: Date)
    requires Valid(createdAt) && Valid(now)
    requires DayNumber(now) - DayNumber(createdAt) > 120
    ensures DayNumber(GetEarliestFirstOfMonthWithin90Days(createdAt))
            < DayNumber(FirstOfMonth(AddDays(now, -LookbackDays)))
    ensures GetEarliestFirstOfMonthWithin90Days(createdAt) != ComputeWindowStart(createdAt, now)
  {
    AsWrittenIsCreationMonth(createdAt);
    var cutoff := AddDays(now, -LookbackDays);
    assert DayNumber(FirstOfMonth(cutoff)) >= DayNumber(cutoff) - 30;
    WindowStartBounds(createdAt, now);
  }
}
