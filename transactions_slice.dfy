/**
 * The frontend's `features/transactions.ts`: the transactions slice state
 * with its reducers, and the cascade of `selectRegisteredSavingsPerAccounts`
 * that spreads this year's transfers into registered-savings accounts over
 * the TFSA, FHSA and RRSP accounts.
 *
 * Which kinds of account the user holds comes from `identifyAccountType`,
 * which is not part of this model: the three lookups become booleans.
 */
module TransactionsSlice {
  import opened Wrappers
  import opened TransactionMapper
  import opened SpendingUtils

  // ---------------------------------------------------------------------------
  // The registered-savings cascade
  // ---------------------------------------------------------------------------

  /** The category whose total is spread over the accounts. */
  const SavingsCategory := "TRANSFER_OUT_INVESTMENT_AND_RETIREMENT_FUNDS"

  /** `maxTfsa2024` and `maxFhsa2024`. */
  const MaxTfsa: real := 7000.0
  const MaxFhsa: real := 8000.0

  /** Whether the user has an RRSP, a TFSA and an FHSA account. */
  datatype AccountKinds = AccountKinds(rsp: bool, tfsa: bool, fhsa: bool)

  /** The selector's result; a `None` field is JavaScript `undefined` (the category has no total). */
  datatype Estimates = Estimates(estimatedTfsa: Option<real>, estimatedRsp: Option<real>, estimatedFhsa: Option<real>)

  /** What the cascade returns (`None` for `undefined`) and what it leaves in the category's total. */
  datatype CascadeOutcome = CascadeOutcome(estimates: Option<Estimates>, remaining: Option<real>)

  /** The per-category totals record of this year; the selector changes it in place. */
  class RegisteredSavings {
    var totals: map<string, real>

    constructor(totals: map<string, real>)
      ensures this.totals == totals
    {
      this.totals := totals;
    }
  }

  /** `registeredSavings[category]`: `None` when the record has no such property. */
  function Lookup(totals: map<string, real>): Option<real> {
    if SavingsCategory in totals then Some(totals[SavingsCategory]) else None
  }

  /** `total > cap`; `undefined > cap` is false. */
  predicate Above(total: Option<real>, cap: real) {
    total.Some? && total.value > cap
  }

  /**
   * The cascade on the category total: a TFSA takes up to 7000, then an FHSA
   * up to 8000, then an RRSP the rest. An account that can take all that is
   * left ends the cascade; with no RRSP to take the rest the result is
   * undefined.
   */
  function Cascade(accounts: AccountKinds, total: Option<real>): CascadeOutcome {
    if accounts.tfsa && !Above(total, MaxTfsa) then
      CascadeOutcome(Some(Estimates(total, Some(0.0), Some(0.0))), total)
    else
      var tfsa := Some(if accounts.tfsa then MaxTfsa else 0.0);
      var afterTfsa := if accounts.tfsa then Some(total.value - MaxTfsa) else total;
      if accounts.fhsa && !Above(afterTfsa, MaxFhsa) then
        CascadeOutcome(Some(Estimates(tfsa, Some(0.0), afterTfsa)), afterTfsa)
      else
        var fhsa := Some(if accounts.fhsa then MaxFhsa else 0.0);
        var afterFhsa := if accounts.fhsa then Some(afterTfsa.value - MaxFhsa) else afterTfsa;
        if accounts.rsp then CascadeOutcome(Some(Estimates(tfsa, afterFhsa, fhsa)), afterFhsa)
        else CascadeOutcome(None, afterFhsa)
  }

  /** The record after the cascade: the category's total replaced by what is left, if it had one. */
  function Store(totals: map<string, real>, remaining: Option<real>): map<string, real> {
    if remaining.Some? then totals[SavingsCategory := remaining.value] else totals
  }

  /**
   * `selectRegisteredSavingsPerAccounts`: returns the cascade's estimates and
   * subtracts from the record's total every cap it fills.
   */
  method SelectRegisteredSavingsPerAccounts(accounts: AccountKinds, registeredSavings: RegisteredSavings)
    returns (r: Option<Estimates>)
    modifies registeredSavings
    ensures r == Cascade(accounts, Lookup(old(registeredSavings.totals))).estimates
    ensures registeredSavings.totals
            == Store(old(registeredSavings.totals), Cascade(accounts, Lookup(old(registeredSavings.totals))).remaining)
  {
    var estimatedTfsa, estimatedRsp, estimatedFhsa := Some(0.0), Some(0.0), Some(0.0);
    if accounts.tfsa && Above(Lookup(registeredSavings.totals), MaxTfsa) {
      estimatedTfsa := Some(MaxTfsa);
      registeredSavings.totals := registeredSavings.totals[SavingsCategory := registeredSavings.totals[SavingsCategory] - MaxTfsa];
    } else if accounts.tfsa {
      estimatedTfsa := Lookup(registeredSavings.totals);
      return Some(Estimates(estimatedTfsa, estimatedRsp, estimatedFhsa));
    }
    if accounts.fhsa && Above(Lookup(registeredSavings.totals), MaxFhsa) {
      estimatedFhsa := Some(MaxFhsa);
      registeredSavings.totals := registeredSavings.totals[SavingsCategory := registeredSavings.totals[SavingsCategory] - MaxFhsa];
    } else if accounts.fhsa {
      estimatedFhsa := Lookup(registeredSavings.totals);
      return Some(Estimates(estimatedTfsa, estimatedRsp, estimatedFhsa));
    }
    if accounts.rsp {
      estimatedRsp := Lookup(registeredSavings.totals);
      return Some(Estimates(estimatedTfsa, estimatedRsp, estimatedFhsa));
    }
    return None;
  }

  /** No returned TFSA estimate exceeds 7000 and no FHSA estimate exceeds 8000. */
  lemma CascadeCaps(accounts: AccountKinds, total: Option<real>)
    ensures var e := Cascade(accounts, total).estimates;
      && (e.Some? && e.value.estimatedTfsa.Some? ==> e.value.estimatedTfsa.value <= MaxTfsa)
      && (e.Some? && e.value.estimatedFhsa.Some? ==> e.value.estimatedFhsa.value <= MaxFhsa)
  {
  }

  /** Whenever a result is returned for a total, the three estimates add up to that total. */
  lemma CascadeConserves(accounts: AccountKinds, total: real)
    ensures var e := Cascade(accounts, Some(total)).estimates;
      e.Some? ==>
        && e.value.estimatedTfsa.Some? && e.value.estimatedRsp.Some? && e.value.estimatedFhsa.Some?
        && e.value.estimatedTfsa.value + e.value.estimatedFhsa.value + e.value.estimatedRsp.value == total
  {
  }

  /** A TFSA takes a total of at most 7000 whole, and the other accounts get nothing. */
  lemma SmallTotalAllToTfsa(accounts: AccountKinds, total: real)
    requires accounts.tfsa && total <= MaxTfsa
    ensures Cascade(accounts, Some(total)).estimates == Some(Estimates(Some(total), Some(0.0), Some(0.0)))
  {
  }

  /**
   * The result is undefined exactly when there is no RRSP account and neither
   * a TFSA nor an FHSA could take all that was left for it; so with an RRSP
   * account there is always a result, and with no account at all there never is.
   */
  lemma UndefinedResult(accounts: AccountKinds, total: Option<real>)
    ensures Cascade(accounts, total).estimates.None? <==>
      && !accounts.rsp
      && (accounts.tfsa ==> Above(total, MaxTfsa))
      && (accounts.fhsa ==> Above(if accounts.tfsa then Some(total.value - MaxTfsa) else total, MaxFhsa))
    ensures accounts.rsp ==> Cascade(accounts, total).estimates.Some?
    ensures !accounts.rsp && !accounts.tfsa && !accounts.fhsa ==> Cascade(accounts, total).estimates.None?
  {
  }

  /**
   * The selector runs again on the record it already changed whenever its
   * memoized inputs are reused: a second run on what the first left behind
   * gives other estimates, which no longer add up to the year's total.
   */
  lemma RerunChangesEstimates()
    ensures var accounts := AccountKinds(true, true, true);
      var first := Cascade(accounts, Some(10000.0));
      var second := Cascade(accounts, first.remaining);
      && first.estimates == Some(Estimates(Some(7000.0), Some(0.0), Some(3000.0)))
      && first.remaining == Some(3000.0)
      && second.estimates == Some(Estimates(Some(3000.0), Some(0.0), Some(0.0)))
  {
  }

  /**
   * The cascade without the write-back: the estimates for the record's total,
   * leaving the record as it was, so that every run agrees with the year's total.
   */
  method EstimateRegisteredSavings(accounts: AccountKinds, registeredSavings: RegisteredSavings)
    returns (r: Option<Estimates>)
    ensures r == Cascade(accounts, Lookup(registeredSavings.totals)).estimates
    ensures r.Some? && SavingsCategory in registeredSavings.totals ==>
      && r.value.estimatedTfsa.Some? && r.value.estimatedRsp.Some? && r.value.estimatedFhsa.Some?
      && r.value.estimatedTfsa.value + r.value.estimatedFhsa.value + r.value.estimatedRsp.value
         == registeredSavings.totals[SavingsCategory]
  {
    var total := Lookup(registeredSavings.totals);
    r := Cascade(accounts, total).estimates;
    if total.Some? {
      CascadeConserves(accounts, total.value);
    }
  }

  // ---------------------------------------------------------------------------
  // The slice state and its reducers
  // ---------------------------------------------------------------------------

  /** The fulfilled payload of `getTransactionsAsync`; `errors` is already rendered by `toString()`. */
  datatype TransactionsPayload = TransactionsPayload(errors: Option<string>, transactions: Option<seq<Transaction>>, cursor: Option<string>)

  /** The fulfilled payload of the two summary thunks. */
  datatype SummaryPayload = SummaryPayload(errors: Option<string>, summarys: Option<seq<SpendingSummary>>)

  /** `'Failed to fetch accounts because ' + action.error.message`; a missing message renders as "undefined". */
  function FailureMessage(message: Option<string>): (m: string)
    ensures |m| >= |"Failed to fetch accounts because "|
    ensures m[..|"Failed to fetch accounts because "|] == "Failed to fetch accounts because "
  {
    "Failed to fetch accounts because " + message.GetOr("undefined")
  }

  /** `TransactionsState`: the state of the `transaction` slice. */
  class TransactionsState {
    var accountRecommendation: string
    var transactions: Option<seq<Transaction>>
    var cursor: Option<string>
    var loading: bool
    var loadingDailySummary: bool
    var loadingMonthlySummary: bool
    var error: Option<string>
    var dailySummaries: Option<seq<SpendingSummary>>
    var monthlySummaries: Option<seq<SpendingSummary>>
    var currentDateRange: Option<seq<int>>

    /** The paging cursor is never the empty string: `cursor || undefined` turns it into `undefined`. */
    predicate Valid()
      reads this
    {
      cursor.Some? ==> cursor.value != ""
    }

    /** `initialState`; the two clock readings are parameters (milliseconds since the epoch). */
    constructor(firstOfMonthMillis: int, nowMillis: int)
      ensures Valid()
      ensures accountRecommendation == "" && error.None? && !loading && transactions.None? && cursor.None?
      ensures !loadingDailySummary && !loadingMonthlySummary && dailySummaries.None? && monthlySummaries.None?
      ensures currentDateRange == Some([firstOfMonthMillis, nowMillis])
    {
      accountRecommendation := "";
      error := None;
      loading := false;
      transactions := None;
      cursor := None;
      loadingDailySummary := false;
      loadingMonthlySummary := false;
      dailySummaries := None;
      monthlySummaries := None;
      currentDateRange := Some([firstOfMonthMillis, nowMillis]);
    }

    /** `removeError`. */
    method RemoveError()
      requires Valid()
      modifies this
      ensures Valid() && error.None?
      ensures accountRecommendation == old(accountRecommendation) && transactions == old(transactions) && cursor == old(cursor)
      ensures loading == old(loading) && loadingDailySummary == old(loadingDailySummary) && loadingMonthlySummary == old(loadingMonthlySummary)
      ensures dailySummaries == old(dailySummaries) && monthlySummaries == old(monthlySummaries) && currentDateRange == old(currentDateRange)
    {
      error := None;
    }

    /** `setCurrentDateRange`. */
    method SetCurrentDateRange(payload: Option<seq<int>>)
      requires Valid()
      modifies this
      ensures Valid() && currentDateRange == payload
      ensures accountRecommendation == old(accountRecommendation) && transactions == old(transactions) && cursor == old(cursor)
      ensures loading == old(loading) && loadingDailySummary == old(loadingDailySummary) && loadingMonthlySummary == old(loadingMonthlySummary)
      ensures dailySummaries == old(dailySummaries) && monthlySummaries == old(monthlySummaries) && error == old(error)
    {
      currentDateRange := payload;
    }

    /** `getTransactionsAsync.pending`: clears the error and starts loading. */
    method GetTransactionsPending()
      requires Valid()
      modifies this
      ensures Valid() && error.None? && loading
      ensures accountRecommendation == old(accountRecommendation) && transactions == old(transactions) && cursor == old(cursor)
      ensures loadingDailySummary == old(loadingDailySummary) && loadingMonthlySummary == old(loadingMonthlySummary)
      ensures dailySummaries == old(dailySummaries) && monthlySummaries == old(monthlySummaries) && currentDateRange == old(currentDateRange)
    {
      error := None;
      loading := true;
    }

    /**
     * `getTransactionsAsync.fulfilled`: the payload's errors, its transactions
     * (none counts as an empty list) and its cursor (an empty one counts as
     * none); loading ends.
     */
    method GetTransactionsFulfilled(payload: TransactionsPayload)
      requires Valid()
      modifies this
      ensures Valid() && !loading
      ensures error == payload.errors
      ensures transactions == Some(payload.transactions.GetOr([]))
      ensures cursor == (if payload.cursor.Some? && payload.cursor.value != "" then payload.cursor else None)
      ensures accountRecommendation == old(accountRecommendation)
      ensures loadingDailySummary == old(loadingDailySummary) && loadingMonthlySummary == old(loadingMonthlySummary)
      ensures dailySummaries == old(dailySummaries) && monthlySummaries == old(monthlySummaries) && currentDateRange == old(currentDateRange)
    {
      error := payload.errors;
      transactions := Some(payload.transactions.GetOr([]));
      cursor := if payload.cursor.Some? && payload.cursor.value != "" then payload.cursor else None;
      loading := false;
    }

    /** `getTransactionsAsync.rejected`: an error message, the transactions of the payload if any, and loading ends. */
    method GetTransactionsRejected(message: Option<string>, payloadTransactions: Option<seq<Transaction>>)
      requires Valid()
      modifies this
      ensures Valid() && !loading
      ensures error == Some(FailureMessage(message))
      ensures transactions == Some(payloadTransactions.GetOr([]))
      ensures accountRecommendation == old(accountRecommendation) && cursor == old(cursor)
      ensures loadingDailySummary == old(loadingDailySummary) && loadingMonthlySummary == old(loadingMonthlySummary)
      ensures dailySummaries == old(dailySummaries) && monthlySummaries == old(monthlySummaries) && currentDateRange == old(currentDateRange)
    {
      error := Some(FailureMessage(message));
      transactions := Some(payloadTransactions.GetOr([]));
      loading := false;
    }

    /** `getYesterdaySummaryAsyncThunk.pending`. */
    method GetDailySummaryPending()
      requires Valid()
      modifies this
      ensures Valid() && error.None? && loadingDailySummary
      ensures accountRecommendation == old(accountRecommendation) && transactions == old(transactions) && cursor == old(cursor)
      ensures loading == old(loading) && loadingMonthlySummary == old(loadingMonthlySummary)
      ensures dailySummaries == old(dailySummaries) && monthlySummaries == old(monthlySummaries) && currentDateRange == old(currentDateRange)
    {
      error := None;
      loadingDailySummary := true;
    }

    /** `getYesterdaySummaryAsyncThunk.fulfilled`. */
    method GetDailySummaryFulfilled(payload: SummaryPayload)
      requires Valid()
      modifies this
      ensures Valid() && !loadingDailySummary
      ensures error == payload.errors && dailySummaries == payload.summarys
      ensures accountRecommendation == old(accountRecommendation) && transactions == old(transactions) && cursor == old(cursor)
      ensures loading == old(loading) && loadingMonthlySummary == old(loadingMonthlySummary)
      ensures monthlySummaries == old(monthlySummaries) && currentDateRange == old(currentDateRange)
    {
      error := payload.errors;
      loadingDailySummary := false;
      dailySummaries := payload.summarys;
    }

    /** `getYesterdaySummaryAsyncThunk.rejected`: only loading ends; the error is left as it was. */
    method GetDailySummaryRejected()
      requires Valid()
      modifies this
      ensures Valid() && !loadingDailySummary
      ensures accountRecommendation == old(accountRecommendation) && transactions == old(transactions) && cursor == old(cursor)
      ensures loading == old(loading) && loadingMonthlySummary == old(loadingMonthlySummary) && error == old(error)
      ensures dailySummaries == old(dailySummaries) && monthlySummaries == old(monthlySummaries) && currentDateRange == old(currentDateRange)
    {
      loadingDailySummary := false;
    }

    /** `getMonthlySummariesAsyncThunk.pending`. */
    method GetMonthlySummaryPending()
      requires Valid()
      modifies this
      ensures Valid() && error.None? && loadingMonthlySummary
      ensures accountRecommendation == old(accountRecommendation) && transactions == old(transactions) && cursor == old(cursor)
      ensures loading == old(loading) && loadingDailySummary == old(loadingDailySummary)
      ensures dailySummaries == old(dailySummaries) && monthlySummaries == old(monthlySummaries) && currentDateRange == old(currentDateRange)
    {
      error := None;
      loadingMonthlySummary := true;
    }

    /** `getMonthlySummariesAsyncThunk.fulfilled`. */
    method GetMonthlySummaryFulfilled(payload: SummaryPayload)
      requires Valid()
      modifies this
      ensures Valid() && !loadingMonthlySummary
      ensures error == payload.errors && monthlySummaries == payload.summarys
      ensures accountRecommendation == old(accountRecommendation) && transactions == old(transactions) && cursor == old(cursor)
      ensures loading == old(loading) && loadingDailySummary == old(loadingDailySummary)
      ensures dailySummaries == old(dailySummaries) && currentDateRange == old(currentDateRange)
    {
      error := payload.errors;
      loadingMonthlySummary := false;
      monthlySummaries := payload.summarys;
    }

    /** `getMonthlySummariesAsyncThunk.rejected`: an error message, and loading ends. */
    method GetMonthlySummaryRejected(message: Option<string>)
      requires Valid()
      modifies this
      ensures Valid() && !loadingMonthlySummary
      ensures error == Some(FailureMessage(message))
      ensures accountRecommendation == old(accountRecommendation) && transactions == old(transactions) && cursor == old(cursor)
      ensures loading == old(loading) && loadingDailySummary == old(loadingDailySummary)
      ensures dailySummaries == old(dailySummaries) && monthlySummaries == old(monthlySummaries) && currentDateRange == old(currentDateRange)
    {
      error := Some(FailureMessage(message));
      loadingMonthlySummary := false;
    }
  }
}
