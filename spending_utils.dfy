/**
 * The spending folds of the frontend's `spendingUtils.tsx`: per-category
 * totals over a list of spending summaries, and per-category daily averages
 * of monthly summaries.
 *
 * A summary's `spending` record is a map from category to amount (a missing
 * record counts as empty). Its `date` is the local calendar date that
 * `new Date(summary.date)` yields; the current date, `new Date()`, is the
 * parameter `now`.
 */
module SpendingUtils {
  import opened Wrappers
  import opened Calendar

  datatype SpendingSummary = SpendingSummary(date: Date, spending: Option<map<string, real>>)

  const Income := "INCOME"
  const TransferIn := "TRANSFER_IN"

  /** Whether a category is added up: anything but income and incoming transfers, unless `includeAll`. */
  predicate Included(category: string, includeAll: bool) {
    (category != Income && category != TransferIn) || includeAll
  }

  /** `summary.spending || {}`. */
  function SpendingOf(summary: SpendingSummary): map<string, real> {
    summary.spending.GetOr(map[])
  }

  /** `totals[category] || 0`. */
  function Get(totals: map<string, real>, category: string): real {
    if category in totals then totals[category] else 0.0
  }

  /** The categories that appear in some summary. */
  function Categories(summaries: seq<SpendingSummary>): set<string>
    decreases |summaries|
  {
    if summaries == [] then {}
    else Categories(summaries[..|summaries| - 1]) + SpendingOf(summaries[|summaries| - 1]).Keys
  }

  lemma {:induction false} CategoriesOf(summaries: seq<SpendingSummary>, category: string)
    ensures category in Categories(summaries) <==>
            exists i :: 0 <= i < |summaries| && category in SpendingOf(summaries[i])
    decreases |summaries|
  {
    if summaries != [] {
      var init := summaries[..|summaries| - 1];
      CategoriesOf(init, category);
      if category in Categories(init) {
        var i :| 0 <= i < |init| && category in SpendingOf(init[i]);
        assert summaries[i] == init[i];
      }
      if exists i :: 0 <= i < |summaries| && category in SpendingOf(summaries[i]) {
        var i :| 0 <= i < |summaries| && category in SpendingOf(summaries[i]);
        if i < |init| {
          assert summaries[i] == init[i];
        }
      }
    }
  }

  /** What one summary adds to `category`: its amount divided by `divisor`, if it has one and the category is added up. */
  function Share(spending: map<string, real>, category: string, includeAll: bool, divisor: real): real
    requires divisor != 0.0
  {
    if category in spending && Included(category, includeAll) then spending[category] / divisor else 0.0
  }

  /** The total of `category` over all summaries (zero for income and incoming transfers). */
  function CategoryTotal(summaries: seq<SpendingSummary>, category: string): real
    decreases |summaries|
  {
    if summaries == [] then 0.0
    else CategoryTotal(summaries[..|summaries| - 1], category) + Share(SpendingOf(summaries[|summaries| - 1]), category, false, 1.0)
  }

  /** The total over two runs of summaries is the sum of their totals. */
  lemma {:induction false} CategoryTotalAppend(a: seq<SpendingSummary>, b: seq<SpendingSummary>, category: string)
    ensures CategoryTotal(a + b, category) == CategoryTotal(a, category) + CategoryTotal(b, category)
    decreases |b|
  {
    if b != [] {
      var b' := b[..|b| - 1];
      assert (a + b)[..|a + b| - 1] == a + b';
      assert (a + b)[|a + b| - 1] == b[|b| - 1];
      CategoryTotalAppend(a, b', category);
    } else {
      assert a + b == a;
    }
  }

  /** Income and incoming transfers are never totalled. */
  lemma {:induction false} ExcludedTotalIsZero(summaries: seq<SpendingSummary>, category: string)
    requires !Included(category, false)
    ensures CategoryTotal(summaries, category) == 0.0
    decreases |summaries|
  {
    if summaries != [] {
      ExcludedTotalIsZero(summaries[..|summaries| - 1], category);
    }
  }

  /**
   * The `forEach` over one summary's entries: every added-up category of
   * `spending` gains its amount divided by `divisor`; nothing else changes.
   * Each category occurs once in a record, so the visiting order is immaterial.
   */
  method AddSpending(totals: map<string, real>, spending: map<string, real>, includeAll: bool, divisor: real)
    returns (r: map<string, real>)
    requires divisor != 0.0
    ensures forall c :: c in r <==> c in totals || (c in spending && Included(c, includeAll))
    ensures forall c :: Get(r, c) == Get(totals, c) + Share(spending, c, includeAll, divisor)
  {
    r := totals;
    var todo := spending.Keys;
    while todo != {}
      invariant todo <= spending.Keys
      invariant forall c :: c in r <==> c in totals || (c in spending && c !in todo && Included(c, includeAll))
      invariant forall c :: Get(r, c) == Get(totals, c) + if c in todo then 0.0 else Share(spending, c, includeAll, divisor)
      decreases todo
    {
      var category :| category in todo;
      if Included(category, includeAll) {
        r := r[category := Get(r, category) + spending[category] / divisor];
      }
      todo := todo - {category};
    }
  }

  /**
   * `calculateTotalSpending`: for every category that occurs in some summary,
   * except income and incoming transfers, the sum of its amounts.
   */
  method CalculateTotalSpending(summaries: seq<SpendingSummary>) returns (totals: map<string, real>)
    ensures forall c :: c in totals <==> Included(c, false) && c in Categories(summaries)
    ensures forall c :: Get(totals, c) == CategoryTotal(summaries, c)
    ensures Income !in totals && TransferIn !in totals
  {
    totals := map[];
    var i := 0;
    while i < |summaries|
      invariant 0 <= i <= |summaries|
      invariant forall c :: c in totals <==> Included(c, false) && c in Categories(summaries[..i])
      invariant forall c :: Get(totals, c) == CategoryTotal(summaries[..i], c)
    {
      totals := AddSpending(totals, SpendingOf(summaries[i]), false, 1.0);
      assert summaries[..i + 1][..i] == summaries[..i];
      i := i + 1;
    }
    assert summaries[..i] == summaries;
  }

  /** `daysInMonth`, indexed by the 0-based month of `getMonth()`. */
  const DaysInMonthTable: seq<int> := [31, 28, 31, 30, 31, 30, 31, 31, 30, 31, 30, 31]

  /** Every month lasts 28, 30 or 31 days, so a past month's divisor is positive. */
  lemma DaysInMonthTableValues(month: int)
    requires 0 <= month < 12
    ensures DaysInMonthTable[month] in {28, 30, 31}
  {
  }

  /** The table is the calendar's month length, except February of a leap year, which it makes one day short. */
  lemma DaysInMonthTableIsCalendar(year: int, month: int)
    requires 1 <= month <= 12
    ensures !(month == 2 && IsLeapYear(year)) ==> DaysInMonthTable[month - 1] == Calendar.DaysInMonth(year, month)
    ensures month == 2 && IsLeapYear(year) ==> DaysInMonthTable[month - 1] == Calendar.DaysInMonth(year, month) - 1
  {
  }

  /** The number of days a summary's amounts are spread over: the days so far in the current month, else the whole month. */
  function Divisor(date: Date, now: Date): (n: int)
    requires Valid(date) && Valid(now)
    ensures 1 <= n <= 31
    ensures date.month == now.month && date.year == now.year ==> n == now.day
    ensures !(date.month == now.month && date.year == now.year) ==> n == DaysInMonthTable[date.month - 1]
  {
    if date.month == now.month && date.year == now.year then now.day
    else DaysInMonthTable[date.month - 1]
  }

  /** Every summary's date is a calendar date. */
  predicate Dated(summaries: seq<SpendingSummary>) {
    forall i :: 0 <= i < |summaries| ==> Valid(summaries[i].date)
  }

  /** The sum over all summaries of `category`'s amount per day of the summary's month. */
  function AverageTotal(summaries: seq<SpendingSummary>, category: string, includeAll: bool, now: Date): real
    requires Dated(summaries) && Valid(now)
    decreases |summaries|
  {
    if summaries == [] then 0.0
    else
      var last := summaries[|summaries| - 1];
      AverageTotal(summaries[..|summaries| - 1], category, includeAll, now)
        + Share(SpendingOf(last), category, includeAll, Divisor(last.date, now) as real)
  }

  /** With non-negative amounts, a daily average never exceeds the plain total. */
  lemma {:induction false} AverageAtMostTotal(summaries: seq<SpendingSummary>, category: string, now: Date)
    requires Dated(summaries) && Valid(now)
    requires forall i :: 0 <= i < |summaries| ==> forall c :: c in SpendingOf(summaries[i]) ==> SpendingOf(summaries[i])[c] >= 0.0
    ensures 0.0 <= AverageTotal(summaries, category, false, now) <= CategoryTotal(summaries, category)
    decreases |summaries|
  {
    if summaries != [] {
      var init, last := summaries[..|summaries| - 1], summaries[|summaries| - 1];
      AverageAtMostTotal(init, category, now);
      var d := Divisor(last.date, now) as real;
      if category in SpendingOf(last) && Included(category, false) {
        DivideByDays(SpendingOf(last)[category], d);
      }
    }
  }

  /** A non-negative amount spread over at least one day: the daily amount is between 0 and the amount. */
  lemma DivideByDays(v: real, d: real)
    requires v >= 0.0 && d >= 1.0
    ensures 0.0 <= v / d <= v
  {
    assert v / d * d == v;
    assert v <= v * d;
  }

  /**
   * `calculateAverageSpendingFromMonthlySummarys`: for every category that
   * occurs in some summary (income and incoming transfers only with
   * `includeAll`), the sum of its amounts, each divided by the number of days
   * of its summary's month.
   */
  method CalculateAverageSpendingFromMonthlySummarys(summaries: seq<SpendingSummary>, includeAll: bool, now: Date)
    returns (totals: map<string, real>)
    requires Dated(summaries) && Valid(now)
    ensures forall c :: c in totals <==> Included(c, includeAll) && c in Categories(summaries)
    ensures forall c :: Get(totals, c) == AverageTotal(summaries, c, includeAll, now)
  {
    totals := map[];
    var i := 0;
    while i < |summaries|
      invariant 0 <= i <= |summaries|
      invariant forall c :: c in totals <==> Included(c, includeAll) && c in Categories(summaries[..i])
      invariant forall c :: Get(totals, c) == AverageTotal(summaries[..i], c, includeAll, now)
    {
      var summary := summaries[i];
      var numberOfDays := Divisor(summary.date, now);
      totals := AddSpending(totals, SpendingOf(summary), includeAll, numberOfDays as real);
      assert summaries[..i + 1][..i] == summaries[..i];
      i := i + 1;
    }
    assert summaries[..i] == summaries;
  }
}
