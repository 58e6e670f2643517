/**
 * `aggregateSpendingByCategory` of `calculateIncomeAndSpending.js`.
 *
 * Every transaction with a truthy amount, a truthy date and a truthy primary
 * category adds the absolute value of its amount to its day's bucket and to
 * the category's weekly and monthly totals; the totals are then turned into
 * run-rates by dividing by the span, in days, between the earliest and the
 * latest day seen.
 *
 * Days are day numbers (see `Calendar`): the UTC calendar day whose ISO
 * `YYYY-MM-DD` text the source uses as key. Reading the amount (`parseFloat`)
 * and the day (`new Date(...)`) are the parameters `parseAmount` and `dayOf`.
 */
module SpendingAggregate {
  import opened Wrappers
  import opened DynamoRecords
  import opened TransactionMapper

  /** What one contributing transaction adds: its day, its category and its amount. */
  datatype Entry = Entry(day: int, category: string, amount: real)

  /** A weekly or monthly run-rate; dividing a positive total by a zero span gives `Infinity`. */
  datatype Rate = Amount(value: real) | PositiveInfinity

  datatype DailySpendingSummary = DailySpendingSummary(date: int, spending: map<string, real>)

  datatype AggregatedSpending = AggregatedSpending(
    daily_spending: seq<DailySpendingSummary>,
    weekly_spending: map<string, Rate>,
    monthly_spending: map<string, Rate>)

  datatype AggregationError = AggregationError(message: string)

  const NoValidTransactions := "No valid transactions found to aggregate."

  function Abs(x: real): (r: real)
    ensures r >= 0.0 && (r == x || r == -x)
  {
    if x < 0.0 then -x else x
  }

  /** `(m[k] || 0)` */
  function Get(m: map<string, real>, k: string): real {
    if k in m then m[k] else 0.0
  }

  /** `transaction.personal_finance_category?.primary`, when it is truthy. */
  function PrimaryCategory(t: Transaction): (r: Option<string>)
    ensures r.Some? <==> t.personal_finance_category.Some? && Truthy(t.personal_finance_category.value.primary)
    ensures r.Some? ==> r == t.personal_finance_category.value.primary
  {
    match t.personal_finance_category
    case Some(pfc) => if Truthy(pfc.primary) then pfc.primary else None
    case None => None
  }

  /** The entry a transaction contributes: only with a truthy amount, date and category. */
  function EntryOf(t: Transaction, parseAmount: string -> real, dayOf: string -> int): (r: Option<Entry>)
    ensures r.Some? <==> Truthy(t.amount) && Truthy(t.date) && PrimaryCategory(t).Some?
    ensures r.Some? ==> r.value == Entry(dayOf(t.date.value), PrimaryCategory(t).value, parseAmount(t.amount.value))
  {
    if Truthy(t.amount) && Truthy(t.date) && PrimaryCategory(t).Some? then
      Some(Entry(dayOf(t.date.value), PrimaryCategory(t).value, parseAmount(t.amount.value)))
    else None
  }

  /** The entries of the contributing transactions, in input order. */
  function Entries(ts: seq<Transaction>, parseAmount: string -> real, dayOf: string -> int): (es: seq<Entry>)
    ensures |es| <= |ts|
    decreases |ts|
  {
    if ts == [] then []
    else
      var init := Entries(ts[..|ts| - 1], parseAmount, dayOf);
      match EntryOf(ts[|ts| - 1], parseAmount, dayOf)
      case Some(e) => init + [e]
      case None => init
  }

  /** A transaction's entry is in the list exactly when that transaction contributes it. */
  lemma {:induction false} EntriesMembers(ts: seq<Transaction>, parseAmount: string -> real, dayOf: string -> int, e: Entry)
    ensures e in Entries(ts, parseAmount, dayOf) <==>
      exists i :: 0 <= i < |ts| && EntryOf(ts[i], parseAmount, dayOf) == Some(e)
    decreases |ts|
  {
    if ts != [] {
      var init := ts[..|ts| - 1];
      EntriesMembers(init, parseAmount, dayOf, e);
      if exists i :: 0 <= i < |init| && EntryOf(init[i], parseAmount, dayOf) == Some(e) {
        var i :| 0 <= i < |init| && EntryOf(init[i], parseAmount, dayOf) == Some(e);
        assert ts[i] == init[i];
      }
      if exists i :: 0 <= i < |ts| && EntryOf(ts[i], parseAmount, dayOf) == Some(e) {
        var i :| 0 <= i < |ts| && EntryOf(ts[i], parseAmount, dayOf) == Some(e);
        if i < |init| {
          assert init[i] == ts[i];
        }
      }
    }
  }

  /** Transactions are taken in input order: the entries of two runs are those of the first, then of the second. */
  lemma {:induction false} EntriesAppend(a: seq<Transaction>, b: seq<Transaction>, parseAmount: string -> real, dayOf: string -> int)
    ensures Entries(a + b, parseAmount, dayOf) == Entries(a, parseAmount, dayOf) + Entries(b, parseAmount, dayOf)
    decreases |b|
  {
    if b == [] {
      assert a + b == a;
    } else {
      var init := b[..|b| - 1];
      assert (a + b)[..|a + b| - 1] == a + init;
      assert (a + b)[|a + b| - 1] == b[|b| - 1];
      EntriesAppend(a, init, parseAmount, dayOf);
    }
  }

  // ---------------------------------------------------------------------------
  // The accumulation loop, as a left fold

  /** The three accumulators of the loop; `weekly` and `monthly` are equal until the division. */
  datatype Accumulators = Accumulators(days: seq<int>, daily: map<int, map<string, real>>, totals: map<string, real>)

  /** One iteration of the loop body for a contributing transaction. */
  function Add(acc: Accumulators, e: Entry): Accumulators {
    var bucket := if e.day in acc.daily then acc.daily[e.day] else map[];
    Accumulators(
      if e.day in acc.daily then acc.days else acc.days + [e.day],
      acc.daily[e.day := bucket[e.category := Get(bucket, e.category) + Abs(e.amount)]],
      acc.totals[e.category := Get(acc.totals, e.category) + Abs(e.amount)])
  }

  function Accumulate(es: seq<Entry>): Accumulators
    decreases |es|
  {
    if es == [] then Accumulators([], map[], map[])
    else Add(Accumulate(es[..|es| - 1]), es[|es| - 1])
  }

  // ---------------------------------------------------------------------------
  // Reference definitions, independent of the loop

  predicate HasCategory(es: seq<Entry>, c: string) {
    exists k :: 0 <= k < |es| && es[k].category == c
  }

  predicate HasDay(es: seq<Entry>, d: int) {
    exists k :: 0 <= k < |es| && es[k].day == d
  }

  predicate HasDayCategory(es: seq<Entry>, d: int, c: string) {
    exists k :: 0 <= k < |es| && es[k].day == d && es[k].category == c
  }

  /** Sum of `abs(amount)` over the entries of category `c`. */
  function CategoryTotal(es: seq<Entry>, c: string): (s: real)
    ensures s >= 0.0
    decreases |es|
  {
    if es == [] then 0.0
    else CategoryTotal(es[..|es| - 1], c) + (if es[|es| - 1].category == c then Abs(es[|es| - 1].amount) else 0.0)
  }

  /** Sum of `abs(amount)` over the entries of category `c` on day `d`. */
  function DayCategoryTotal(es: seq<Entry>, d: int, c: string): (s: real)
    ensures s >= 0.0
    decreases |es|
  {
    if es == [] then 0.0
    else
      var e := es[|es| - 1];
      DayCategoryTotal(es[..|es| - 1], d, c) + (if e.day == d && e.category == c then Abs(e.amount) else 0.0)
  }

  /** The position of the first entry on day `d`. */
  function FirstIndex(es: seq<Entry>, d: int): (k: nat)
    requires HasDay(es, d)
    ensures k < |es| && es[k].day == d
    ensures forall j :: 0 <= j < k ==> es[j].day != d
    decreases |es|
  {
    var init := es[..|es| - 1];
    if HasDay(init, d) then
      var k := FirstIndex(init, d);
      assert es[k] == init[k];
      k
    else
      assert forall j :: 0 <= j < |es| - 1 ==> es[j] == init[j];
      |es| - 1
  }

  /** The earliest and the latest day among the entries. */
  function MinDay(es: seq<Entry>): (m: int)
    requires es != []
    ensures HasDay(es, m) && forall k :: 0 <= k < |es| ==> m <= es[k].day
  {
    if |es| == 1 then es[0].day
    else
      var m := MinDay(es[1..]);
      assert forall k :: 1 <= k < |es| ==> es[k] == es[1..][k - 1];
      if es[0].day <= m then es[0].day else m
  }

  function MaxDay(es: seq<Entry>): (m: int)
    requires es != []
    ensures HasDay(es, m) && forall k :: 0 <= k < |es| ==> es[k].day <= m
  {
    if |es| == 1 then es[0].day
    else
      var m := MaxDay(es[1..]);
      assert forall k :: 1 <= k < |es| ==> es[k] == es[1..][k - 1];
      if es[0].day >= m then es[0].day else m
  }

  // ---------------------------------------------------------------------------
  // The fold computes the reference sums

  lemma PrefixWitness(es: seq<Entry>)
    requires es != []
    ensures forall k :: 0 <= k < |es| - 1 ==> es[..|es| - 1][k] == es[k]
  {
  }

  /** A category has a total exactly when some entry carries it, and the total is its sum. */
  lemma {:induction false} AccumulateTotals(es: seq<Entry>)
    ensures forall c :: c in Accumulate(es).totals <==> HasCategory(es, c)
    ensures forall c :: Get(Accumulate(es).totals, c) == CategoryTotal(es, c)
    decreases |es|
  {
    if es != [] {
      var init, e := es[..|es| - 1], es[|es| - 1];
      AccumulateTotals(init);
      PrefixWitness(es);
      assert forall c :: HasCategory(es, c) <==> HasCategory(init, c) || e.category == c;
    }
  }

  /** A day has a bucket exactly when some entry falls on it; each bucket holds that day's sums. */
  lemma {:induction false} AccumulateDaily(es: seq<Entry>)
    ensures forall d :: d in Accumulate(es).daily <==> HasDay(es, d)
    ensures forall d, c :: d in Accumulate(es).daily ==>
      (c in Accumulate(es).daily[d] <==> HasDayCategory(es, d, c))
    ensures forall d, c :: d in Accumulate(es).daily ==>
      Get(Accumulate(es).daily[d], c) == DayCategoryTotal(es, d, c)
    ensures forall d, c :: d !in Accumulate(es).daily ==> DayCategoryTotal(es, d, c) == 0.0
    decreases |es|
  {
    if es != [] {
      var init, e := es[..|es| - 1], es[|es| - 1];
      AccumulateDaily(init);
      PrefixWitness(es);
      assert forall d :: HasDay(es, d) <==> HasDay(init, d) || e.day == d;
      assert forall d, c :: HasDayCategory(es, d, c) <==> HasDayCategory(init, d, c) || (e.day == d && e.category == c);
    }
  }

  /** The day list holds each day once, and exactly the days with a bucket. */
  lemma {:induction false} DaysOnce(es: seq<Entry>)
    ensures forall d :: d in Accumulate(es).days <==> d in Accumulate(es).daily
    ensures forall i, j :: 0 <= i < j < |Accumulate(es).days| ==> Accumulate(es).days[i] != Accumulate(es).days[j]
    ensures forall d :: d in Accumulate(es).days ==> HasDay(es, d)
    decreases |es|
  {
    if es != [] {
      var init := es[..|es| - 1];
      DaysOnce(init);
      PrefixWitness(es);
    }
  }

  /** Appending an entry keeps the first position of every day already present. */
  lemma FirstIndexKept(es: seq<Entry>)
    requires es != []
    ensures forall d :: HasDay(es[..|es| - 1], d) ==> HasDay(es, d) && FirstIndex(es, d) == FirstIndex(es[..|es| - 1], d)
  {
    var init := es[..|es| - 1];
    forall d | HasDay(init, d) ensures HasDay(es, d) && FirstIndex(es, d) == FirstIndex(init, d) {
      var k := FirstIndex(init, d);
      assert es[k].day == d;
    }
  }

  /** The day list is in the order in which each day first appears in the input. */
  lemma {:induction false} DaysInFirstOrder(es: seq<Entry>)
    ensures forall d :: d in Accumulate(es).days ==> HasDay(es, d)
    ensures forall i, j :: 0 <= i < j < |Accumulate(es).days| ==>
      FirstIndex(es, Accumulate(es).days[i]) < FirstIndex(es, Accumulate(es).days[j])
    decreases |es|
  {
    DaysOnce(es);
    if es != [] {
      var init, e := es[..|es| - 1], es[|es| - 1];
      DaysInFirstOrder(init);
      DaysOnce(init);
      AccumulateDaily(init);
      FirstIndexKept(es);
      var days := Accumulate(es).days;
      if e.day !in Accumulate(init).daily {
        assert HasDay(es, e.day);
        assert FirstIndex(es, e.day) == |es| - 1;
        forall i | 0 <= i < |days| - 1 ensures FirstIndex(es, days[i]) < |es| - 1 {
          assert days[i] == Accumulate(init).days[i];
        }
      }
    }
  }

  /**
   * The day list holds each day once, exactly the days with a bucket, in the
   * order in which each day first appears in the input.
   */
  lemma AccumulateDays(es: seq<Entry>)
    ensures forall d :: d in Accumulate(es).days <==> d in Accumulate(es).daily
    ensures forall i, j :: 0 <= i < j < |Accumulate(es).days| ==> Accumulate(es).days[i] != Accumulate(es).days[j]
    ensures forall d :: d in Accumulate(es).days ==> HasDay(es, d)
    ensures forall i, j :: 0 <= i < j < |Accumulate(es).days| ==>
      FirstIndex(es, Accumulate(es).days[i]) < FirstIndex(es, Accumulate(es).days[j])
  {
    DaysOnce(es);
    DaysInFirstOrder(es);
  }

  // ---------------------------------------------------------------------------
  // Normalisation and the result

  /**
   * `if (total) total /= days / period`: a zero total stays 0, a positive
   * total over a zero span is `Infinity`, otherwise total / (days / period).
   */
  function NormalizeRate(total: real, days: int, period: real): Rate
    requires total >= 0.0 && days >= 0 && period > 0.0
  {
    if total == 0.0 then Amount(0.0)
    else if days == 0 then PositiveInfinity
    else Amount(total / (days as real / period))
  }

  /** The rate is infinite only for spending over a zero span; a finite rate is never negative and is 0 only for no spending. */
  lemma RateSign(total: real, days: int, period: real)
    requires total >= 0.0 && days >= 0 && period > 0.0
    ensures NormalizeRate(total, days, period) == PositiveInfinity <==> total > 0.0 && days == 0
    ensures NormalizeRate(total, days, period).Amount? ==>
      var v := NormalizeRate(total, days, period).value;
      v >= 0.0 && (v == 0.0 <==> total == 0.0)
  {
    if total != 0.0 && days != 0 {
      assert days as real / period > 0.0;
    }
  }

  /** A finite rate, spread back over the span, gives the total again. */
  lemma RateRecoversTotal(total: real, days: int, period: real)
    requires total >= 0.0 && days > 0 && period > 0.0
    ensures NormalizeRate(total, days, period).Amount?
    ensures NormalizeRate(total, days, period).value * (days as real / period) == total
  {
  }

  /** Every total of `totals` turned into a rate over `span` days per `period`. */
  function Rates(totals: map<string, real>, span: int, period: real): (r: map<string, Rate>)
    requires span >= 0 && period > 0.0
    requires forall c :: c in totals ==> totals[c] >= 0.0
    ensures r.Keys == totals.Keys
    ensures forall c :: c in r ==> r[c] == NormalizeRate(totals[c], span, period)
  {
    map c | c in totals :: NormalizeRate(totals[c], span, period)
  }

  lemma RatesSameTotals(a: map<string, real>, b: map<string, real>, span: int, period: real)
    requires a == b && span >= 0 && period > 0.0
    requires forall c :: c in a ==> a[c] >= 0.0
    ensures Rates(a, span, period) == Rates(b, span, period)
  {
  }

  /** `Object.entries(dailySpendingMap).map(([date, spending]) => ({ date, spending }))` */
  function Summaries(days: seq<int>, daily: map<int, map<string, real>>): (r: seq<DailySpendingSummary>)
    requires forall d :: d in days ==> d in daily
    ensures |r| == |days|
    ensures forall i :: 0 <= i < |r| ==> r[i].date == days[i] && r[i].spending == daily[days[i]]
  {
    if days == [] then []
    else
      var first := days[0];
      assert first in days;
      assert forall d :: d in days[1..] ==> d in days;
      [DailySpendingSummary(first, daily[first])] + Summaries(days[1..], daily)
  }

  function MinOf(s: seq<int>): (m: int)
    requires s != []
    ensures m in s && forall x :: x in s ==> m <= x
  {
    if |s| == 1 then s[0]
    else
      var m := MinOf(s[1..]);
      assert forall x :: x in s ==> x == s[0] || x in s[1..];
      if s[0] <= m then s[0] else m
  }

  function MaxOf(s: seq<int>): (m: int)
    requires s != []
    ensures m in s && forall x :: x in s ==> x <= m
  {
    if |s| == 1 then s[0]
    else
      var m := MaxOf(s[1..]);
      assert forall x :: x in s ==> x == s[0] || x in s[1..];
      if s[0] >= m then s[0] else m
  }
  /** `(maxDate - minDate) / MS_IN_A_DAY` over the day keys: whole days from the earliest to the latest. */
  function Duration(days: seq<int>): (n: int)
    requires days != []
    ensures n >= 0
    ensures forall d :: d in days ==> MinOf(days) <= d <= MinOf(days) + n
  {
    MaxOf(days) - MinOf(days)
  }


  /** The accumulators are consistent: every listed day has a bucket and totals are not negative. */
  predicate Consistent(acc: Accumulators) {
    && (forall d :: d in acc.days ==> d in acc.daily)
    && (forall c :: c in acc.totals ==> acc.totals[c] >= 0.0)
  }

  /** What the function returns once the loop has filled the accumulators. */
  function Summarize(acc: Accumulators, span: int): AggregatedSpending
    requires Consistent(acc) && span >= 0
  {
    AggregatedSpending(
      Summaries(acc.days, acc.daily),
      Rates(acc.totals, span, 7.0),
      Rates(acc.totals, span, 30.0))
  }

  lemma AccumulateConsistent(es: seq<Entry>)
    ensures Consistent(Accumulate(es))
  {
    AccumulateDays(es);
    AccumulateTotals(es);
  }

  /**
   * The body of the accumulation loop for one contributing transaction: open
   * the day's bucket on first sight of the day, then add `abs(amount)` to the
   * bucket and to both running totals.
   */
  method AddToBuckets(
    days: seq<int>, daily: map<int, map<string, real>>, weekly: map<string, real>, monthly: map<string, real>, e: Entry)
    returns (days': seq<int>, daily': map<int, map<string, real>>, weekly': map<string, real>, monthly': map<string, real>)
    ensures Accumulators(days', daily', weekly') == Add(Accumulators(days, daily, weekly), e)
    ensures monthly' == Add(Accumulators(days, daily, monthly), e).totals
  {
    days', daily' := days, daily;
    if e.day !in daily' {
      daily' := daily'[e.day := map[]];
      days' := days' + [e.day];
    }
    daily' := daily'[e.day := daily'[e.day][e.category := Get(daily'[e.day], e.category) + Abs(e.amount)]];
    weekly' := weekly[e.category := Get(weekly, e.category) + Abs(e.amount)];
    monthly' := monthly[e.category := Get(monthly, e.category) + Abs(e.amount)];
  }

  /** The division loop: every category's weekly and monthly total becomes a rate over the span. */
  method NormalizeTotals(weekly: map<string, real>, monthly: map<string, real>, span: int)
    returns (weeklyRates: map<string, Rate>, monthlyRates: map<string, Rate>)
    requires span >= 0 && weekly.Keys == monthly.Keys
    requires forall c :: c in weekly ==> weekly[c] >= 0.0 && monthly[c] >= 0.0
    ensures weeklyRates == Rates(weekly, span, 7.0)
    ensures monthlyRates == Rates(monthly, span, 30.0)
  {
    var remaining := weekly.Keys;
    weeklyRates, monthlyRates := map[], map[];
    while remaining != {}
      invariant remaining <= weekly.Keys
      invariant weeklyRates.Keys == monthlyRates.Keys == weekly.Keys - remaining
      invariant forall c :: c in weeklyRates ==> weeklyRates[c] == NormalizeRate(weekly[c], span, 7.0)
      invariant forall c :: c in monthlyRates ==> monthlyRates[c] == NormalizeRate(monthly[c], span, 30.0)
      decreases remaining
    {
      var c :| c in remaining;
      weeklyRates := weeklyRates[c := NormalizeRate(weekly[c], span, 7.0)];
      monthlyRates := monthlyRates[c := NormalizeRate(monthly[c], span, 30.0)];
      remaining := remaining - {c};
    }
  }

  /** Step 1 of `aggregateSpendingByCategory`: the accumulation loop over the transactions. */
  method AccumulateTransactions(transactions: seq<Transaction>, parseAmount: string -> real, dayOf: string -> int)
    returns (days: seq<int>, daily: map<int, map<string, real>>, weekly: map<string, real>, monthly: map<string, real>)
    ensures Accumulators(days, daily, weekly) == Accumulate(Entries(transactions, parseAmount, dayOf))
    ensures monthly == weekly
  {
    days, daily, weekly, monthly := [], map[], map[], map[];
    var i := 0;
    ghost var seen: seq<Entry> := [];
    while i < |transactions|
      invariant 0 <= i <= |transactions|
      invariant seen == Entries(transactions[..i], parseAmount, dayOf)
      invariant Accumulators(days, daily, weekly) == Accumulate(seen)
      invariant monthly == weekly
    {
      var t := transactions[i];
      EntriesStep(transactions, i, parseAmount, dayOf);
      if Truthy(t.amount) && Truthy(t.date) {
        var amount := parseAmount(t.amount.value);
        var dateKey := dayOf(t.date.value);
        var category := PrimaryCategory(t);
        if category.Some? {
          var e := Entry(dateKey, category.value, amount);
          AccumulateStep(seen, e);
          seen := seen + [e];
          days, daily, weekly, monthly := AddToBuckets(days, daily, weekly, monthly, e);
        }
      }
      i := i + 1;
    }
    assert transactions[..i] == transactions;
  }

  /**
   * `aggregateSpendingByCategory`: fails exactly when no transaction
   * contributes; otherwise returns the aggregate of the contributing entries
   * (the day buckets in first-seen order and the rates computed from the totals).
   */
  method AggregateSpendingByCategory(transactions: seq<Transaction>, parseAmount: string -> real, dayOf: string -> int)
    returns (r: Result<AggregatedSpending, AggregationError>)
    ensures r.Failure? <==> Entries(transactions, parseAmount, dayOf) == []
    ensures r.Failure? ==> r.error.message == NoValidTransactions
    ensures r.Success? ==> r.value == Aggregate(Entries(transactions, parseAmount, dayOf))
  {
    var days, daily, weekly, monthly := AccumulateTransactions(transactions, parseAmount, dayOf);
    ghost var es := Entries(transactions, parseAmount, dayOf);
    AccumulateConsistent(es);
    NoDaysIffNoEntries(es);
    if days == [] {
      return Failure(AggregationError(NoValidTransactions));
    }
    var span := Duration(days);
    var summary := SummarizeBuckets(days, daily, weekly, monthly, span);
    SpanOfDays(es);
    r := Success(summary);
  }

  /** Step 3 once some day has spending: the division loop, and the result object. */
  method SummarizeBuckets(days: seq<int>, daily: map<int, map<string, real>>, weekly: map<string, real>, monthly: map<string, real>, span: int)
    returns (summary: AggregatedSpending)
    requires Consistent(Accumulators(days, daily, weekly)) && monthly == weekly && span >= 0
    ensures summary == Summarize(Accumulators(days, daily, weekly), span)
  {
    var weeklyRates, monthlyRates := NormalizeTotals(weekly, monthly, span);
    summary := AggregatedSpending(Summaries(days, daily), weeklyRates, monthlyRates);
  }

  lemma EntriesStep(ts: seq<Transaction>, i: nat, parseAmount: string -> real, dayOf: string -> int)
    requires i < |ts|
    ensures Entries(ts[..i + 1], parseAmount, dayOf) ==
      Entries(ts[..i], parseAmount, dayOf) + match EntryOf(ts[i], parseAmount, dayOf) case Some(e) => [e] case None => []
  {
    assert ts[..i + 1][..i] == ts[..i];
  }

  lemma AccumulateStep(es: seq<Entry>, e: Entry)
    ensures Accumulate(es + [e]) == Add(Accumulate(es), e)
  {
    assert (es + [e])[..|es|] == es;
  }

  lemma NoDaysIffNoEntries(es: seq<Entry>)
    ensures Accumulate(es).days == [] <==> es == []
  {
    if es != [] { EntriesHaveDays(es); }
  }

  lemma EntriesHaveDays(es: seq<Entry>)
    requires es != []
    ensures Accumulate(es).days != []
  {
    AccumulateDays(es);
    AccumulateDaily(es);
    assert HasDay(es, es[0].day);
  }

  // ---------------------------------------------------------------------------
  // What the result means

  /** No transaction contributes exactly when every one lacks an amount, a date or a category. */
  lemma {:induction false} EntriesEmptyIff(ts: seq<Transaction>, parseAmount: string -> real, dayOf: string -> int)
    ensures Entries(ts, parseAmount, dayOf) == [] <==> forall i :: 0 <= i < |ts| ==> EntryOf(ts[i], parseAmount, dayOf).None?
    decreases |ts|
  {
    if ts != [] {
      var init := ts[..|ts| - 1];
      EntriesEmptyIff(init, parseAmount, dayOf);
      assert forall i :: 0 <= i < |ts| - 1 ==> init[i] == ts[i];
    }
  }

  /** The result for a non-empty list of entries. */
  function Aggregate(es: seq<Entry>): AggregatedSpending
    requires es != []
  {
    AccumulateConsistent(es);
    Summarize(Accumulate(es), Span(es))
  }

  /** The number of days between the earliest and the latest entry. */
  function Span(es: seq<Entry>): (n: int)
    requires es != []
    ensures n >= 0
  {
    MaxDay(es) - MinDay(es)
  }

  /** The span the result divides by is the one between the earliest and the latest entry. */
  lemma SpanOfDays(es: seq<Entry>)
    requires es != []
    ensures Accumulate(es).days != []
    ensures Duration(Accumulate(es).days) == Span(es)
  {
    EntriesHaveDays(es);
    AccumulateDays(es);
    AccumulateDaily(es);
    var days := Accumulate(es).days;
    assert MinDay(es) in days && MaxDay(es) in days;
    assert HasDay(es, MinOf(days)) && HasDay(es, MaxOf(days));
  }

  /** The daily part of the result, read off the accumulators. */
  lemma AggregateDays(es: seq<Entry>)
    requires es != []
    ensures Accumulate(es).days != [] && Consistent(Accumulate(es))
    ensures Aggregate(es).daily_spending == Summaries(Accumulate(es).days, Accumulate(es).daily)
  {
    AccumulateConsistent(es);
    EntriesHaveDays(es);
  }

  /**
   * Each category some entry carries, and no other, gets a weekly and a
   * monthly rate: its total of absolute amounts over the span divided by 7 or by 30.
   */
  lemma RatesFromTotals(es: seq<Entry>)
    requires es != []
    ensures forall c :: c in Aggregate(es).weekly_spending <==> HasCategory(es, c)
    ensures forall c :: c in Aggregate(es).monthly_spending <==> HasCategory(es, c)
    ensures forall c :: c in Aggregate(es).weekly_spending ==>
      Aggregate(es).weekly_spending[c] == NormalizeRate(CategoryTotal(es, c), Span(es), 7.0)
    ensures forall c :: c in Aggregate(es).monthly_spending ==>
      Aggregate(es).monthly_spending[c] == NormalizeRate(CategoryTotal(es, c), Span(es), 30.0)
  {
    AccumulateConsistent(es);
    EntriesHaveDays(es);
    SpanOfDays(es);
    AccumulateTotals(es);
    var acc := Accumulate(es);
    var weekly, monthly := Aggregate(es).weekly_spending, Aggregate(es).monthly_spending;
    assert weekly.Keys == monthly.Keys == acc.totals.Keys;
    forall c | c in acc.totals
      ensures weekly[c] == NormalizeRate(CategoryTotal(es, c), Span(es), 7.0)
      ensures monthly[c] == NormalizeRate(CategoryTotal(es, c), Span(es), 30.0)
    {
      assert Get(acc.totals, c) == acc.totals[c];
    }
  }

  /**
   * The daily summaries: one per day that has an entry, in the order in
   * which the days first appear, each holding that day's sum of absolute
   * amounts for exactly the categories spent on that day.
   */
  lemma DailySummaries(es: seq<Entry>)
    requires es != []
    ensures forall i :: 0 <= i < |Aggregate(es).daily_spending| ==> HasDay(es, Aggregate(es).daily_spending[i].date)
    ensures forall d :: HasDay(es, d) ==>
      exists i :: 0 <= i < |Aggregate(es).daily_spending| && Aggregate(es).daily_spending[i].date == d
    ensures forall i, j :: 0 <= i < j < |Aggregate(es).daily_spending| ==>
      FirstIndex(es, Aggregate(es).daily_spending[i].date) < FirstIndex(es, Aggregate(es).daily_spending[j].date)
    ensures forall i, c :: 0 <= i < |Aggregate(es).daily_spending| ==>
      (c in Aggregate(es).daily_spending[i].spending <==> HasDayCategory(es, Aggregate(es).daily_spending[i].date, c))
    ensures forall i, c :: 0 <= i < |Aggregate(es).daily_spending| && c in Aggregate(es).daily_spending[i].spending ==>
      Aggregate(es).daily_spending[i].spending[c] == DayCategoryTotal(es, Aggregate(es).daily_spending[i].date, c)
  {
    AggregateDays(es);
    var acc := Accumulate(es);
    var s := Aggregate(es).daily_spending;
    SummariesFromDays(es, acc, s);
  }

  lemma SummariesFromDays(es: seq<Entry>, acc: Accumulators, s: seq<DailySpendingSummary>)
    requires acc == Accumulate(es) && Consistent(acc)
    requires s == Summaries(acc.days, acc.daily)
    ensures forall i :: 0 <= i < |s| ==> HasDay(es, s[i].date)
    ensures forall d :: HasDay(es, d) ==> exists i :: 0 <= i < |s| && s[i].date == d
    ensures forall i, j :: 0 <= i < j < |s| ==> FirstIndex(es, s[i].date) < FirstIndex(es, s[j].date)
    ensures forall i, c :: 0 <= i < |s| ==> (c in s[i].spending <==> HasDayCategory(es, s[i].date, c))
    ensures forall i, c :: 0 <= i < |s| && c in s[i].spending ==> s[i].spending[c] == DayCategoryTotal(es, s[i].date, c)
  {
    AccumulateDays(es);
    AccumulateDaily(es);
    forall d | HasDay(es, d) ensures exists i :: 0 <= i < |s| && s[i].date == d {
      var i :| 0 <= i < |acc.days| && acc.days[i] == d;
      assert s[i].date == d;
    }
    forall i, c | 0 <= i < |s| && c in s[i].spending ensures s[i].spending[c] == DayCategoryTotal(es, s[i].date, c) {
      assert Get(acc.daily[acc.days[i]], c) == s[i].spending[c];
    }
  }

  /** Distinct first indices give distinct dates: no day is summarised twice. */
  lemma DailyDatesDistinct(es: seq<Entry>)
    requires es != []
    ensures forall i, j :: 0 <= i < j < |Aggregate(es).daily_spending| ==>
      Aggregate(es).daily_spending[i].date != Aggregate(es).daily_spending[j].date
  {
    DailySummaries(es);
  }

  /** Every category with a rate appears in at least one day's summary, and conversely. */
  lemma RateCategoriesAppearDaily(es: seq<Entry>)
    requires es != []
    ensures forall c :: c in Aggregate(es).weekly_spending <==>
      exists i :: 0 <= i < |Aggregate(es).daily_spending| && c in Aggregate(es).daily_spending[i].spending
  {
    RatesFromTotals(es);
    DailySummaries(es);
    CategoriesOfDays(es, Aggregate(es).daily_spending);
  }

  /** A list of day summaries covering every day of the entries holds exactly their categories. */
  lemma CategoriesOfDays(es: seq<Entry>, s: seq<DailySpendingSummary>)
    requires forall d :: HasDay(es, d) ==> exists i :: 0 <= i < |s| && s[i].date == d
    requires forall i, c :: 0 <= i < |s| ==> (c in s[i].spending <==> HasDayCategory(es, s[i].date, c))
    ensures forall c :: HasCategory(es, c) <==> exists i :: 0 <= i < |s| && c in s[i].spending
  {
    forall c ensures HasCategory(es, c) <==> exists i :: 0 <= i < |s| && c in s[i].spending {
      if HasCategory(es, c) {
        var k :| 0 <= k < |es| && es[k].category == c;
        assert HasDay(es, es[k].day);
        var i :| 0 <= i < |s| && s[i].date == es[k].day;
        assert HasDayCategory(es, s[i].date, c);
      }
      if i :| 0 <= i < |s| && c in s[i].spending {
        assert HasDayCategory(es, s[i].date, c);
      }
    }
  }

  lemma ScaledRate(total: real, days: int)
    requires total >= 0.0 && days >= 0
    ensures NormalizeRate(total, days, 7.0).PositiveInfinity? <==> NormalizeRate(total, days, 30.0).PositiveInfinity?
    ensures NormalizeRate(total, days, 7.0).Amount? ==>
      7.0 * NormalizeRate(total, days, 30.0).value == 30.0 * NormalizeRate(total, days, 7.0).value
  {
    if total != 0.0 && days != 0 {
      var d := days as real;
      assert total / (d / 7.0) == 7.0 * total / d;
      assert total / (d / 30.0) == 30.0 * total / d;
    }
  }

  /** The monthly rate is the weekly rate scaled by 30/7, and both are infinite together. */
  lemma MonthlyIsScaledWeekly(es: seq<Entry>)
    requires es != []
    ensures forall c :: c in Aggregate(es).weekly_spending <==> c in Aggregate(es).monthly_spending
    ensures forall c :: c in Aggregate(es).weekly_spending ==>
      var w, m := Aggregate(es).weekly_spending[c], Aggregate(es).monthly_spending[c];
      && (w.PositiveInfinity? <==> m.PositiveInfinity?)
      && (w.Amount? ==> m.Amount? && 7.0 * m.value == 30.0 * w.value)
  {
    RatesFromTotals(es);
    forall c | c in Aggregate(es).weekly_spending {
      ScaledRate(CategoryTotal(es, c), Span(es));
    }
  }

  /** Sum over a list of days of one category's daily totals. */
  function DaySum(es: seq<Entry>, days: seq<int>, c: string): real
    decreases |days|
  {
    if days == [] then 0.0 else DaySum(es, days[..|days| - 1], c) + DayCategoryTotal(es, days[|days| - 1], c)
  }

  predicate Distinct(days: seq<int>) {
    forall i, j :: 0 <= i < j < |days| ==> days[i] != days[j]
  }

  lemma {:induction false} DaySumStep(es: seq<Entry>, days: seq<int>, c: string)
    requires es != [] && Distinct(days)
    ensures var e := es[|es| - 1];
      DaySum(es, days, c) ==
        DaySum(es[..|es| - 1], days, c) + (if e.day in days && e.category == c then Abs(e.amount) else 0.0)
    decreases |days|
  {
    if days != [] {
      var init := days[..|days| - 1];
      assert Distinct(init);
      DaySumStep(es, init, c);
      var e := es[|es| - 1];
      assert e.day in days <==> e.day in init || e.day == days[|days| - 1];
      assert e.day == days[|days| - 1] ==> e.day !in init;
    }
  }

  /** Summing one category over any distinct list of days that covers every entry gives its total. */
  lemma {:induction false} DaySumCovers(es: seq<Entry>, days: seq<int>, c: string)
    requires Distinct(days)
    requires forall k :: 0 <= k < |es| ==> es[k].day in days
    ensures DaySum(es, days, c) == CategoryTotal(es, c)
    decreases |es|
  {
    if es == [] {
      DaySumEmpty(days, c);
    } else {
      var init := es[..|es| - 1];
      DaySumStep(es, days, c);
      DaySumCovers(init, days, c);
    }
  }

  lemma {:induction false} DaySumEmpty(days: seq<int>, c: string)
    ensures DaySum([], days, c) == 0.0
    decreases |days|
  {
    if days != [] { DaySumEmpty(days[..|days| - 1], c); }
  }

  /** Sum over the daily summaries of one category's amounts (0 where it is absent). */
  function SpendingSum(s: seq<DailySpendingSummary>, c: string): real
    decreases |s|
  {
    if s == [] then 0.0 else SpendingSum(s[..|s| - 1], c) + Get(s[|s| - 1].spending, c)
  }

  lemma {:induction false} SpendingSumIsDaySum(es: seq<Entry>, s: seq<DailySpendingSummary>, days: seq<int>, c: string)
    requires |s| == |days|
    requires forall i :: 0 <= i < |s| ==> s[i].date == days[i] && Get(s[i].spending, c) == DayCategoryTotal(es, days[i], c)
    ensures SpendingSum(s, c) == DaySum(es, days, c)
    decreases |s|
  {
    if s != [] {
      SpendingSumIsDaySum(es, s[..|s| - 1], days[..|days| - 1], c);
    }
  }

  /**
   * Nothing is lost or counted twice: for every category, the daily
   * summaries add up to the same total that the weekly and monthly rates
   * are computed from.
   */
  lemma DailySummariesAddUp(es: seq<Entry>, c: string)
    requires es != []
    ensures SpendingSum(Aggregate(es).daily_spending, c) == CategoryTotal(es, c)
  {
    AccumulateDays(es);
    AccumulateDaily(es);
    var acc := Accumulate(es);
    var s := Aggregate(es).daily_spending;
    forall k | 0 <= k < |es| ensures es[k].day in acc.days {
      assert HasDay(es, es[k].day);
    }
    SpendingSumIsDaySum(es, s, acc.days, c);
    DaySumCovers(es, acc.days, c);
  }

  /** A positive total over a single day gives infinite rates; a zero total gives 0. */
  lemma SingleDayRates(es: seq<Entry>)
    requires es != []
    requires forall k :: 0 <= k < |es| ==> es[k].day == es[0].day
    ensures forall c :: c in Aggregate(es).weekly_spending ==>
      (Aggregate(es).weekly_spending[c] == PositiveInfinity <==> CategoryTotal(es, c) > 0.0)
    ensures forall c :: c in Aggregate(es).weekly_spending && CategoryTotal(es, c) == 0.0 ==>
      Aggregate(es).weekly_spending[c] == Amount(0.0)
    ensures forall c :: c in Aggregate(es).monthly_spending ==>
      (Aggregate(es).monthly_spending[c] == PositiveInfinity <==> CategoryTotal(es, c) > 0.0)
    ensures forall c :: c in Aggregate(es).monthly_spending && CategoryTotal(es, c) == 0.0 ==>
      Aggregate(es).monthly_spending[c] == Amount(0.0)
  {
    RatesFromTotals(es);
    assert Span(es) == 0;
  }

  /**
   * Ten and then twenty spent on FOOD fifteen days apart (2024-01-05 and
   * 2024-01-20, say): a weekly rate of 14 and a monthly rate of 60.
   */
  lemma TwoFoodPurchases(first: int)
    ensures var es := [Entry(first, "FOOD", 10.0), Entry(first + 15, "FOOD", 20.0)];
      && Span(es) == 15
      && (forall c :: c in Aggregate(es).weekly_spending <==> c == "FOOD")
      && (forall c :: c in Aggregate(es).monthly_spending <==> c == "FOOD")
      && Aggregate(es).weekly_spending["FOOD"] == Amount(14.0)
      && Aggregate(es).monthly_spending["FOOD"] == Amount(60.0)
  {
    var es := [Entry(first, "FOOD", 10.0), Entry(first + 15, "FOOD", 20.0)];
    RatesFromTotals(es);
    assert HasCategory(es, "FOOD") by { assert es[0].category == "FOOD"; }
    assert forall c :: HasCategory(es, c) ==> c == "FOOD";
    FoodTotal(first);
    assert Span(es) == 15 by { SpanOfTwo(first); }
    assert NormalizeRate(30.0, 15, 7.0) == Amount(14.0);
    assert NormalizeRate(30.0, 15, 30.0) == Amount(60.0);
  }

  lemma FoodTotal(first: int)
    ensures CategoryTotal([Entry(first, "FOOD", 10.0), Entry(first + 15, "FOOD", 20.0)], "FOOD") == 30.0
  {
    var es := [Entry(first, "FOOD", 10.0), Entry(first + 15, "FOOD", 20.0)];
    var one := [Entry(first, "FOOD", 10.0)];
    assert es[..1] == one;
    assert one[..0] == [];
    assert CategoryTotal(one, "FOOD") == 10.0;
  }

  lemma SpanOfTwo(first: int)
    ensures Span([Entry(first, "FOOD", 10.0), Entry(first + 15, "FOOD", 20.0)]) == 15
  {
    var es := [Entry(first, "FOOD", 10.0), Entry(first + 15, "FOOD", 20.0)];
    assert es[..1] == [es[0]];
  }

  // ---------------------------------------------------------------------------
  // The mapper feeding the aggregation

  /** As written, a mapped record never carries a category, so it never contributes. */
  lemma MappedRecordsNeverContribute(items: seq<Record>, parseAmount: string -> real, dayOf: string -> int)
    requires MapAll(items).Success?
    ensures Entries(MapAll(items).value, parseAmount, dayOf) == []
  {
    var ts := MapAll(items).value;
    forall i | 0 <= i < |ts| ensures EntryOf(ts[i], parseAmount, dayOf).None? {
      assert MapDynamoDBToTransaction(items[i]) == Success(ts[i]);
    }
    EntriesEmptyIff(ts, parseAmount, dayOf);
  }

  /** With the category copied, a mapped record contributes exactly when amount, date and category are truthy. */
  lemma CorrectedMappingContributes(item: Record, parseAmount: string -> real, dayOf: string -> int)
    requires "transaction_id" in item
    ensures MapDynamoDBToTransactionWithCategory(item).Success?
    ensures EntryOf(MapDynamoDBToTransactionWithCategory(item).value, parseAmount, dayOf).Some? <==>
      && Truthy(NumberAttr(item, "amount"))
      && Truthy(StringAttr(item, "date"))
      && Truthy(NestedStringAttr(item, "personal_finance_category", "primary"))
  {
    var t := MapDynamoDBToTransactionWithCategory(item).value;
    var u := MapDynamoDBToTransaction(item).value;
    assert t.amount == u.amount && t.date == u.date;
  }
}
