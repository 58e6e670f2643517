/**
 * `groupTransactionsByMonth` of `calculateIncomeAndSpending.js`.
 *
 * The transactions with a truthy date are partitioned by the text
 * `"<year>-<month>"` of their (local) calendar month, the month 1-based and
 * unpadded; then every partition is aggregated on its own, and the first
 * partition that cannot be aggregated fails the whole call.
 *
 * The month key is read through `localDayOf` (the local-time calendar day of
 * `new Date(date)`), while the aggregation keys days through `dayOf` (the UTC
 * day of the ISO text); both are parameters.
 */
module MonthGrouping {
  import opened Wrappers
  import opened Numerals
  import Calendar
  import opened DynamoRecords
  import opened TransactionMapper
  import opened SpendingAggregate

  /** The template literal `${year}-${month}`. */
  function MonthKey(year: int, month: nat): (k: string)
    ensures |k| >= 3
  {
    IntToDecimal(year) + "-" + NatToDecimal(month)
  }

  /** Different months never share a key. */
  lemma MonthKeyInjective(y1: int, m1: nat, y2: int, m2: nat)
    ensures MonthKey(y1, m1) == MonthKey(y2, m2) <==> y1 == y2 && m1 == m2
  {
    if MonthKey(y1, m1) == MonthKey(y2, m2) {
      SplitAtLastDash(IntToDecimal(y1), NatToDecimal(m1), IntToDecimal(y2), NatToDecimal(m2));
      IntRenderingInjective(y1, y2);
      RenderingInjective(m1, m2);
    }
  }

  /** Only transactions with a truthy date are grouped. */
  predicate Dated(t: Transaction) {
    Truthy(t.date)
  }

  /** The key of the calendar month a dated transaction falls in. */
  function KeyOf(t: Transaction, localDayOf: string -> int): string
    requires Dated(t)
  {
    var d := Calendar.CivilFromDays(localDayOf(t.date.value));
    MonthKey(d.year, d.month)
  }

  /** Two dated transactions share a key exactly when they fall in the same month of the same year. */
  lemma SameKeySameMonth(t: Transaction, u: Transaction, localDayOf: string -> int)
    requires Dated(t) && Dated(u)
    ensures var a, b := Calendar.CivilFromDays(localDayOf(t.date.value)), Calendar.CivilFromDays(localDayOf(u.date.value));
      KeyOf(t, localDayOf) == KeyOf(u, localDayOf) <==> a.year == b.year && a.month == b.month
  {
    var a, b := Calendar.CivilFromDays(localDayOf(t.date.value)), Calendar.CivilFromDays(localDayOf(u.date.value));
    MonthKeyInjective(a.year, a.month, b.year, b.month);
  }

  predicate InMonth(t: Transaction, k: string, localDayOf: string -> int) {
    Dated(t) && KeyOf(t, localDayOf) == k
  }

  /** The partition of month `k`: the transactions of that month, in input order. */
  function Members(ts: seq<Transaction>, k: string, localDayOf: string -> int): (ms: seq<Transaction>)
    ensures |ms| <= |ts|
    decreases |ts|
  {
    if ts == [] then []
    else
      var t := ts[|ts| - 1];
      Members(ts[..|ts| - 1], k, localDayOf) + if InMonth(t, k, localDayOf) then [t] else []
  }

  /** The keys of all months that hold a dated transaction. */
  function MonthKeys(ts: seq<Transaction>, localDayOf: string -> int): set<string>
    decreases |ts|
  {
    if ts == [] then {}
    else
      var t := ts[|ts| - 1];
      MonthKeys(ts[..|ts| - 1], localDayOf) + if Dated(t) then {KeyOf(t, localDayOf)} else {}
  }

  /** The month keys are exactly the keys of the dated transactions. */
  lemma {:induction false} MonthKeysOfDated(ts: seq<Transaction>, localDayOf: string -> int)
    ensures forall k :: k in MonthKeys(ts, localDayOf) <==> exists i :: 0 <= i < |ts| && InMonth(ts[i], k, localDayOf)
    decreases |ts|
  {
    if ts != [] {
      var init := ts[..|ts| - 1];
      MonthKeysOfDated(init, localDayOf);
      var last := |ts| - 1;
      forall k
        ensures k in MonthKeys(ts, localDayOf) <==> exists i :: 0 <= i < |ts| && InMonth(ts[i], k, localDayOf)
      {
        if k in MonthKeys(init, localDayOf) {
          var i :| 0 <= i < |init| && InMonth(init[i], k, localDayOf);
          assert ts[i] == init[i];
        }
        if InMonth(ts[last], k, localDayOf) {
          assert 0 <= last < |ts|;
        }
        if exists i :: 0 <= i < |ts| && InMonth(ts[i], k, localDayOf) {
          var i :| 0 <= i < |ts| && InMonth(ts[i], k, localDayOf);
          if i < last {
            assert ts[i] == init[i];
          }
        }
      }
    }
  }

  /** A partition holds exactly the transactions of its month, each as often as in the input. */
  lemma {:induction false} MembersAreTheMonth(ts: seq<Transaction>, k: string, localDayOf: string -> int)
    ensures forall t :: t in Members(ts, k, localDayOf) ==> InMonth(t, k, localDayOf)
    ensures forall t :: InMonth(t, k, localDayOf) ==> multiset(Members(ts, k, localDayOf))[t] == multiset(ts)[t]
    ensures forall t :: !InMonth(t, k, localDayOf) ==> multiset(Members(ts, k, localDayOf))[t] == 0
    decreases |ts|
  {
    if ts != [] {
      var init, t := ts[..|ts| - 1], ts[|ts| - 1];
      MembersAreTheMonth(init, k, localDayOf);
      assert ts == init + [t];
    }
  }

  /** A partition is non-empty exactly when some dated transaction falls in its month. */
  lemma {:induction false} MembersNonEmpty(ts: seq<Transaction>, k: string, localDayOf: string -> int)
    ensures Members(ts, k, localDayOf) != [] <==> k in MonthKeys(ts, localDayOf)
    decreases |ts|
  {
    if ts != [] {
      MembersNonEmpty(ts[..|ts| - 1], k, localDayOf);
    }
  }

  /** `keys` lists the partitions of `groups` once each, and every partition is its month's members. */
  ghost predicate Partitioned(keys: seq<string>, groups: map<string, seq<Transaction>>, ts: seq<Transaction>, localDayOf: string -> int) {
    && groups.Keys == MonthKeys(ts, localDayOf)
    && (forall k :: k in groups ==> groups[k] == Members(ts, k, localDayOf))
    && (forall k :: k in keys <==> k in groups)
    && (forall j, l :: 0 <= j < l < |keys| ==> keys[j] != keys[l])
  }

  /** One step of the `reduce`: a dated transaction joins its month's partition, created on first use. */
  lemma GroupStep(ts: seq<Transaction>, t: Transaction, localDayOf: string -> int,
                  keys: seq<string>, groups: map<string, seq<Transaction>>,
                  keys': seq<string>, groups': map<string, seq<Transaction>>)
    requires Partitioned(keys, groups, ts, localDayOf)
    requires !Dated(t) ==> keys' == keys && groups' == groups
    requires Dated(t) ==>
      var key := KeyOf(t, localDayOf);
      && keys' == (if key in groups then keys else keys + [key])
      && groups' == groups[key := (if key in groups then groups[key] else []) + [t]]
    ensures Partitioned(keys', groups', ts + [t], localDayOf)
  {
    var ts' := ts + [t];
    assert ts'[..|ts|] == ts;
    forall k | k in groups'
      ensures groups'[k] == Members(ts', k, localDayOf)
    {
      if k !in groups {
        MembersNonEmpty(ts, k, localDayOf);
      }
    }
  }

  /**
   * The `reduce` of `groupTransactionsByMonth`: one partition per month that
   * has a dated transaction, each the transactions of that month in input
   * order; `keys` lists the months once each, in the order the object's
   * properties were created.
   */
  method PartitionByMonth(transactions: seq<Transaction>, localDayOf: string -> int)
    returns (keys: seq<string>, groups: map<string, seq<Transaction>>)
    ensures Partitioned(keys, groups, transactions, localDayOf)
  {
    keys, groups := [], map[];
    var i := 0;
    while i < |transactions|
      invariant 0 <= i <= |transactions|
      invariant Partitioned(keys, groups, transactions[..i], localDayOf)
    {
      var t := transactions[i];
      ghost var keys0, groups0 := keys, groups;
      if Dated(t) {
        var key := KeyOf(t, localDayOf);
        if key !in groups {
          groups := groups[key := []];
          keys := keys + [key];
        }
        groups := groups[key := groups[key] + [t]];
      }
      GroupStep(transactions[..i], t, localDayOf, keys0, groups0, keys, groups);
      assert transactions[..i + 1] == transactions[..i] + [t];
      i := i + 1;
    }
    assert transactions[..i] == transactions;
  }

  /** The entries the aggregation of month `k` sees. */
  function MonthEntries(ts: seq<Transaction>, k: string, localDayOf: string -> int, parseAmount: string -> real, dayOf: string -> int): seq<Entry> {
    Entries(Members(ts, k, localDayOf), parseAmount, dayOf)
  }


  /** Every aggregated month has something to aggregate, and holds the aggregate of its partition. */
  predicate AggregatesOfMonths(aggregates: map<string, AggregatedSpending>, ts: seq<Transaction>,
                               localDayOf: string -> int, parseAmount: string -> real, dayOf: string -> int) {
    forall k :: k in aggregates ==>
      && MonthEntries(ts, k, localDayOf, parseAmount, dayOf) != []
      && aggregates[k] == Aggregate(MonthEntries(ts, k, localDayOf, parseAmount, dayOf))
  }

  /** The entries the aggregation of partition `k` sees. */
  function GroupEntries(groups: map<string, seq<Transaction>>, k: string, parseAmount: string -> real, dayOf: string -> int): seq<Entry>
    requires k in groups
  {
    Entries(groups[k], parseAmount, dayOf)
  }

  /** Every aggregated partition has something to aggregate, and holds its aggregate. */
  predicate AggregatesOfGroups(aggregates: map<string, AggregatedSpending>, groups: map<string, seq<Transaction>>,
                               parseAmount: string -> real, dayOf: string -> int) {
    forall k :: k in aggregates ==>
      && k in groups
      && GroupEntries(groups, k, parseAmount, dayOf) != []
      && aggregates[k] == Aggregate(GroupEntries(groups, k, parseAmount, dayOf))
  }

  /**
   * `groupTransactionsByMonth`: the aggregate of every month that has a dated
   * transaction, or the aggregation error of the first month (in key order)
   * with nothing to aggregate.
   */
  method GroupTransactionsByMonth(transactions: seq<Transaction>, localDayOf: string -> int, parseAmount: string -> real, dayOf: string -> int)
    returns (r: Result<map<string, AggregatedSpending>, AggregationError>)
    ensures r.Failure? <==> exists k :: k in MonthKeys(transactions, localDayOf) && MonthEntries(transactions, k, localDayOf, parseAmount, dayOf) == []
    ensures r.Failure? ==> r.error.message == NoValidTransactions
    ensures r.Success? ==> r.value.Keys == MonthKeys(transactions, localDayOf)
    ensures r.Success? ==> AggregatesOfMonths(r.value, transactions, localDayOf, parseAmount, dayOf)
  {
    var keys, groups := PartitionByMonth(transactions, localDayOf);
    r := AggregatePartitions(keys, groups, parseAmount, dayOf);
    PartitionsAreMonths(keys, groups, transactions, localDayOf, parseAmount, dayOf);
    if r.Success? {
      GroupsAreMonths(r.value, keys, groups, transactions, localDayOf, parseAmount, dayOf);
    }
  }

  /** Whether a partition has nothing to aggregate, read off the months. */
  lemma PartitionsAreMonths(keys: seq<string>, groups: map<string, seq<Transaction>>, transactions: seq<Transaction>,
                            localDayOf: string -> int, parseAmount: string -> real, dayOf: string -> int)
    requires Partitioned(keys, groups, transactions, localDayOf)
    ensures (exists k :: k in groups && GroupEntries(groups, k, parseAmount, dayOf) == []) <==>
            (exists k :: k in MonthKeys(transactions, localDayOf) && MonthEntries(transactions, k, localDayOf, parseAmount, dayOf) == [])
  {
    if exists k :: k in groups && GroupEntries(groups, k, parseAmount, dayOf) == [] {
      var k :| k in groups && GroupEntries(groups, k, parseAmount, dayOf) == [];
      assert groups[k] == Members(transactions, k, localDayOf);
      assert k in MonthKeys(transactions, localDayOf) && MonthEntries(transactions, k, localDayOf, parseAmount, dayOf) == [];
    }
    if exists k :: k in MonthKeys(transactions, localDayOf) && MonthEntries(transactions, k, localDayOf, parseAmount, dayOf) == [] {
      var k :| k in MonthKeys(transactions, localDayOf) && MonthEntries(transactions, k, localDayOf, parseAmount, dayOf) == [];
      assert groups[k] == Members(transactions, k, localDayOf);
      assert k in groups && GroupEntries(groups, k, parseAmount, dayOf) == [];
    }
  }

  lemma GroupsAreMonths(aggregates: map<string, AggregatedSpending>, keys: seq<string>, groups: map<string, seq<Transaction>>,
                        transactions: seq<Transaction>, localDayOf: string -> int, parseAmount: string -> real, dayOf: string -> int)
    requires Partitioned(keys, groups, transactions, localDayOf)
    requires AggregatesOfGroups(aggregates, groups, parseAmount, dayOf)
    ensures AggregatesOfMonths(aggregates, transactions, localDayOf, parseAmount, dayOf)
  {
    forall k | k in aggregates
      ensures MonthEntries(transactions, k, localDayOf, parseAmount, dayOf) != []
      ensures aggregates[k] == Aggregate(MonthEntries(transactions, k, localDayOf, parseAmount, dayOf))
    {
      assert groups[k] == Members(transactions, k, localDayOf);
    }
  }

  lemma GroupsStep(aggregates: map<string, AggregatedSpending>, groups: map<string, seq<Transaction>>,
                   parseAmount: string -> real, dayOf: string -> int, key: string, value: AggregatedSpending)
    requires AggregatesOfGroups(aggregates, groups, parseAmount, dayOf)
    requires key in groups && GroupEntries(groups, key, parseAmount, dayOf) != []
    requires value == Aggregate(GroupEntries(groups, key, parseAmount, dayOf))
    ensures AggregatesOfGroups(aggregates[key := value], groups, parseAmount, dayOf)
  {
    var updated := aggregates[key := value];
    forall k | k in updated
      ensures k in groups && GroupEntries(groups, k, parseAmount, dayOf) != []
      ensures updated[k] == Aggregate(GroupEntries(groups, k, parseAmount, dayOf))
    {
      if k != key {
        assert updated[k] == aggregates[k];
      }
    }
  }

  /** Once every key is aggregated, every partition is, and none was empty. */
  lemma AllAggregated(keys: seq<string>, groups: map<string, seq<Transaction>>, aggregates: map<string, AggregatedSpending>,
                      parseAmount: string -> real, dayOf: string -> int)
    requires forall k :: k in keys <==> k in groups
    requires forall k :: k in keys ==> k in aggregates
    requires AggregatesOfGroups(aggregates, groups, parseAmount, dayOf)
    ensures aggregates.Keys == groups.Keys
    ensures !exists k :: k in groups && GroupEntries(groups, k, parseAmount, dayOf) == []
  {
  }

  lemma PrefixStep<T>(s: seq<T>, j: nat)
    requires j < |s|
    ensures s[..j + 1] == s[..j] + [s[j]]
  {
  }

  /** The `for ... of Object.entries(...)` loop: each partition aggregated in key order; the first failure is thrown. */
  method AggregatePartitions(keys: seq<string>, groups: map<string, seq<Transaction>>, parseAmount: string -> real, dayOf: string -> int)
    returns (r: Result<map<string, AggregatedSpending>, AggregationError>)
    requires forall k :: k in keys <==> k in groups
    ensures r.Failure? <==> exists k :: k in groups && GroupEntries(groups, k, parseAmount, dayOf) == []
    ensures r.Failure? ==> r.error.message == NoValidTransactions
    ensures r.Success? ==> r.value.Keys == groups.Keys
    ensures r.Success? ==> AggregatesOfGroups(r.value, groups, parseAmount, dayOf)
  {
    var aggregates: map<string, AggregatedSpending> := map[];
    var j := 0;
    while j < |keys|
      invariant 0 <= j <= |keys|
      invariant forall k :: k in keys[..j] ==> k in aggregates
      invariant AggregatesOfGroups(aggregates, groups, parseAmount, dayOf)
    {
      var key := keys[j];
      var monthly := AggregateSpendingByCategory(groups[key], parseAmount, dayOf);
      if monthly.Failure? {
        return Failure(monthly.error);
      }
      GroupsStep(aggregates, groups, parseAmount, dayOf, key, monthly.value);
      aggregates := aggregates[key := monthly.value];
      PrefixStep(keys, j);
      j := j + 1;
    }
    assert keys[..j] == keys;
    AllAggregated(keys, groups, aggregates, parseAmount, dayOf);
    r := Success(aggregates);
  }
}
