# Spending aggregation, projection and chat relay of the Plaid demo app

This project models the computational core of a personal-finance app built on
Plaid, DynamoDB, AppSync and OpenAI, and proves properties of it.

The core comes from seven source files.

- **Spending aggregation** (`calculateIncomeAndSpending.js`) is the batch job
  that turns one account's transactions into daily buckets and weekly and
  monthly run-rates per category. It covers:
  - `aggregateSpendingByCategory`;
  - `groupTransactionsByMonth`, which splits transactions by calendar month;
  - `getEarliestFirstOfMonthWithin90Days`, the start of the window of
    transactions that is fetched;
  - `chunkArray`, which cuts the accounts into batches of 100.
- **Record mappers** (`mappers/Transactions.js`, `mappers/Item.js`) turn
  DynamoDB items into the API's `Transaction` and `Item` records.
  `mapTransactionToChatInput` turns a transaction into the text given to the
  chat model.
- **Frontend spending folds** (`spendingUtils.tsx`) total a category over a
  list of summaries, or average it per day of each summary's month.
- **The transactions slice** (`features/transactions.ts`) holds the reducers
  of the Redux state. It also holds the selector that spreads this year's
  registered-savings transfers over the TFSA, FHSA and RRSP accounts.
- **Account projection** (`routers/analyze.py`) is `simulate_account_balances`.
  It is a year-by-year projection in which each year's cash is poured into
  the RRSP, then the FHSA, then the TFSA, and the rest into a brokerage
  account.
- **Chat relay** (`gpt.ts`) covers:
  - the two loops that forward a streamed model answer to the UI, first chunk
    by chunk and then in batches;
  - the choice of model and system prompt;
  - the truncation of the prompt;
  - `flatten`, which lists the leaves of a JSON answer.

Code that updates variables step by step is written as methods with loops
and invariants. Examples are the aggregation loops, the folds, `chunkArray`,
the projection loop and the relay loops. Each such method is proved equal to
a specification function, and the properties are proved about that function.

The slice state and the savings record that the selector changes in place are
classes. Pure mappers, `flatten` and the calendar are functions.

Dates are day numbers: days counted from 1970-01-01 on the proleptic
Gregorian calendar. The module `Calendar` proves the round trip between a
civil date and its day number. Text that JavaScript parses (`parseFloat`,
`new Date(...)`) enters the model as function parameters. So do the clock
(`now`, `delta_fraction`) and the stream of chunks.

The fetch window's name, `getEarliestFirstOfMonthWithin90Days`, and its
comments (calculateIncomeAndSpending.js:86 and :90) describe a cutoff 90
days before the run, with a fallback at :91 for an account older than that.
The code instead measures the cutoff from the account's creation date, so
for a valid creation date the fallback is never reached. The model keeps
both the code as written and the rule as named, as a finding (below).

The source does not guard against a zero span
(calculateIncomeAndSpending.js:49-55), and the model follows it:
- a positive total over a zero span is `PositiveInfinity`;
- a zero total stays 0.

## Model

| member | source | states |
|---|---|---|
| `Calendar.AddDays` | backend/lambda/buildLambda/calculateIncomeAndSpending.js:82-83 | `setDate(getDate() - 90)` gives a valid date exactly `k` days from the start date |
| `Calendar.FirstOfMonth` | backend/lambda/buildLambda/calculateIncomeAndSpending.js:85 | the first of the month of the same year and month, at most 30 days before the date |
| `Calendar.CivilRoundTrip` | backend/lambda/buildLambda/calculateIncomeAndSpending.js:21-22 | a calendar date and its day number convert back and forth without loss, so the `YYYY-MM-DD` key names exactly one day |
| `Calendar.DayNumberInjective` | backend/lambda/buildLambda/calculateIncomeAndSpending.js:43-49 | different dates have different day numbers, so comparing times compares dates |
| `Numerals.RenderingInjective` | backend/lambda/src/gpt.ts:163-190 | `count.toString()` never prints two different counts the same way, so every `sk` of a relayed answer is distinct |
| `Numerals.IntRenderingInjective` | backend/lambda/buildLambda/calculateIncomeAndSpending.js:68 | `String(year)` is injective over all integers, negative years included |
| `Numerals.ParseRendered` | backend/lambda/src/gpt.ts:163 | reading the printed decimal digits back gives the number again |
| `Chunking.ChunkArray` | backend/lambda/buildLambda/calculateIncomeAndSpending.js:103-109 | the loop yields `Chunks(items, size)`; gluing the chunks gives back the input; every chunk is non-empty and at most `size`; all but the last are exactly `size`; there are ceil(n/size) chunks |
| `Chunking.ChunksConcat` | backend/lambda/buildLambda/calculateIncomeAndSpending.js:105-106 | concatenating the chunks gives back the input |
| `Chunking.ChunkSizes` | backend/lambda/buildLambda/calculateIncomeAndSpending.js:105-106 | every chunk holds between 1 and `size` elements, and all but the last exactly `size` |
| `Chunking.ChunkCount` | backend/lambda/buildLambda/calculateIncomeAndSpending.js:105 | the number of chunks is the fewest chunks of `size` that hold the input |
| `ItemMapper.MapDdbResponseToItem` | backend/lambda/buildLambda/mappers/Item.js:4-14 | typename `Item`; `sk` is kept exactly (absent stays absent); the other five fields are the attribute's string or `''` |
| `ItemMapper.ItemReadsOnlyItsAttributes` | backend/lambda/buildLambda/mappers/Item.js:4-14 | two records that agree on the six named attributes map to the same item |
| `ItemMapper.SkKeepsAbsence` | backend/lambda/buildLambda/mappers/Item.js:6-11 | only `sk` tells an absent attribute from an empty one; `pk` maps both to `''` |
| `TransactionMapper.MapDynamoDBToTransaction` | backend/lambda/buildLambda/mappers/Transactions.js:5-17 | fails exactly when `transaction_id` is absent (the `.S` access throws); otherwise each optional field is set exactly when its attribute is a non-empty string, and then to that string (the amount to the `N` value); no category is set |
| `TransactionMapper.MappingReadsOnlyItsAttributes` | backend/lambda/buildLambda/mappers/Transactions.js:5-17 | records agreeing on the eight named attributes map to the same transaction |
| `TransactionMapper.MapAll` | backend/lambda/buildLambda/calculateIncomeAndSpending.js:135 | `items.map(mapDynamoDBToTransaction)` fails exactly when some item lacks `transaction_id`, else maps item by item |
| `TransactionMapper.MapDynamoDBToTransactionWithCategory` | backend/lambda/buildLambda/mappers/Transactions.js:5-17 | the corrected mapper: the same fields and failure, plus the category copied from the record's map attribute |
| `TransactionMapper.MapTransactionToChatInput` | backend/lambda/buildLambda/mappers/Transactions.js:19-28 | the text opens with `(Amount: ` and closes with `)` and a line break |
| `TransactionMapper.ChatInputLines` | backend/lambda/buildLambda/mappers/Transactions.js:19-28 | when no field holds a line break, the text splits into exactly the five labelled lines in order |
| `SpendingAggregate.EntryOf` | backend/lambda/buildLambda/calculateIncomeAndSpending.js:19-25 | a transaction contributes exactly when its amount, date and category are all truthy, with its parsed day, category and amount |
| `SpendingAggregate.EntriesMembers` | backend/lambda/buildLambda/calculateIncomeAndSpending.js:18-25 | an entry is in the list exactly when some transaction contributes it: nothing is lost and nothing invented |
| `SpendingAggregate.EntriesAppend` | backend/lambda/buildLambda/calculateIncomeAndSpending.js:18-36 | the loop takes transactions in input order: the entries of two runs are those of the first, then those of the second |
| `SpendingAggregate.AddToBuckets` | backend/lambda/buildLambda/calculateIncomeAndSpending.js:26-33 | one loop body: the day's bucket is opened on first sight, then `abs(amount)` is added to the bucket and both totals, as the fold step `Add` |
| `SpendingAggregate.AccumulateTransactions` | backend/lambda/buildLambda/calculateIncomeAndSpending.js:18-36 | the loop leaves exactly the fold of the contributing entries, with equal weekly and monthly totals |
| `SpendingAggregate.AccumulateTotals` | backend/lambda/buildLambda/calculateIncomeAndSpending.js:32-33 | a category has a total exactly when some entry carries it, and the total is its sum of absolute amounts |
| `SpendingAggregate.AccumulateDaily` | backend/lambda/buildLambda/calculateIncomeAndSpending.js:27-31 | a day has a bucket exactly when some entry falls on it; each bucket holds exactly that day's categories and sums |
| `SpendingAggregate.DaysOnce` | backend/lambda/buildLambda/calculateIncomeAndSpending.js:27-29 | the day list holds each bucketed day once and no other |
| `SpendingAggregate.DaysInFirstOrder` | backend/lambda/buildLambda/calculateIncomeAndSpending.js:38-41 | the day keys are listed in the order their days first appear, as `Object.entries` lists insertion order |
| `SpendingAggregate.AccumulateDays` | backend/lambda/buildLambda/calculateIncomeAndSpending.js:27-41 | the day list is duplicate-free, holds exactly the bucketed days, and is in first-appearance order |
| `SpendingAggregate.Summaries` | backend/lambda/buildLambda/calculateIncomeAndSpending.js:38-41 | one summary per listed day, in order, carrying that day's bucket |
| `SpendingAggregate.MinOf` | backend/lambda/buildLambda/calculateIncomeAndSpending.js:47 | `Math.min` over the days: a member no larger than any |
| `SpendingAggregate.MaxOf` | backend/lambda/buildLambda/calculateIncomeAndSpending.js:48 | `Math.max` over the days: a member no smaller than any |
| `SpendingAggregate.Duration` | backend/lambda/buildLambda/calculateIncomeAndSpending.js:47-49 | the span in days is non-negative and every day lies within it |
| `SpendingAggregate.RateSign` | backend/lambda/buildLambda/calculateIncomeAndSpending.js:52-55 | a rate is infinite exactly for a positive total over a zero span; a finite rate is non-negative and zero exactly for a zero total |
| `SpendingAggregate.RateRecoversTotal` | backend/lambda/buildLambda/calculateIncomeAndSpending.js:52-55 | over a positive span, the rate times `span / period` gives back the total |
| `SpendingAggregate.ScaledRate` | backend/lambda/buildLambda/calculateIncomeAndSpending.js:52-55 | the monthly rate is 30/7 of the weekly one, and the two are infinite together |
| `SpendingAggregate.Rates` | backend/lambda/buildLambda/calculateIncomeAndSpending.js:51-56 | every category keeps its key and gets its total turned into a rate |
| `SpendingAggregate.NormalizeTotals` | backend/lambda/buildLambda/calculateIncomeAndSpending.js:51-56 | the division loop over the category keys yields exactly the weekly and monthly rate maps |
| `SpendingAggregate.SummarizeBuckets` | backend/lambda/buildLambda/calculateIncomeAndSpending.js:37-61 | the result object is the summaries with the rates over the given span |
| `SpendingAggregate.AggregateSpendingByCategory` | backend/lambda/buildLambda/calculateIncomeAndSpending.js:11-62 | throws "No valid transactions found to aggregate." exactly when no transaction contributes, else returns the aggregate of the contributing entries |
| `SpendingAggregate.EntriesEmptyIff` | backend/lambda/buildLambda/calculateIncomeAndSpending.js:43-46 | there is nothing to aggregate exactly when every transaction lacks an amount, a date or a category |
| `SpendingAggregate.NoDaysIffNoEntries` | backend/lambda/buildLambda/calculateIncomeAndSpending.js:43-46 | the day list is empty exactly when no entry contributes |
| `SpendingAggregate.SpanOfDays` | backend/lambda/buildLambda/calculateIncomeAndSpending.js:43-49 | the span read off the day keys is the span between the earliest and the latest entry |
| `SpendingAggregate.RatesFromTotals` | backend/lambda/buildLambda/calculateIncomeAndSpending.js:50-56 | exactly the categories some entry carries get rates: their total of absolute amounts over the span, per 7 and per 30 days |
| `SpendingAggregate.DailySummaries` | backend/lambda/buildLambda/calculateIncomeAndSpending.js:37-41 | one summary per day that has an entry, in first-appearance order, holding exactly that day's categories and sums |
| `SpendingAggregate.DailyDatesDistinct` | backend/lambda/buildLambda/calculateIncomeAndSpending.js:27-29 | no day is summarised twice |
| `SpendingAggregate.RateCategoriesAppearDaily` | backend/lambda/buildLambda/calculateIncomeAndSpending.js:31-33 | a category has a weekly rate exactly when it appears in some day's summary |
| `SpendingAggregate.MonthlyIsScaledWeekly` | backend/lambda/buildLambda/calculateIncomeAndSpending.js:52-55 | the weekly and monthly maps have the same keys, and each monthly rate is its weekly rate scaled by 30/7 |
| `SpendingAggregate.DaySumCovers` | backend/lambda/buildLambda/calculateIncomeAndSpending.js:31-33 | summing a category's daily totals over distinct days that cover every entry gives its total |
| `SpendingAggregate.DailySummariesAddUp` | backend/lambda/buildLambda/calculateIncomeAndSpending.js:31-33 | for every category, the daily summaries add up to the total the rates are computed from |
| `SpendingAggregate.SingleDayRates` | backend/lambda/buildLambda/calculateIncomeAndSpending.js:49-55 | over a single day, every spent category's rates are infinite and an all-zero category stays 0 |
| `SpendingAggregate.TwoFoodPurchases` | backend/lambda/buildLambda/calculateIncomeAndSpending.js:11-62 | 10 and then 20 spent on FOOD 15 days apart give one summary per day, a weekly rate of 14 and a monthly rate of 60 |
| `SpendingAggregate.MappedRecordsNeverContribute` | backend/lambda/buildLambda/mappers/Transactions.js:5-17 | as written, no transaction coming out of the mapper ever contributes to the aggregation |
| `SpendingAggregate.CorrectedMappingContributes` | backend/lambda/buildLambda/mappers/Transactions.js:5-17 | with the category copied, a mapped record contributes exactly when its amount, date and category are non-empty |
| `MonthGrouping.MonthKeyInjective` | backend/lambda/buildLambda/calculateIncomeAndSpending.js:68 | two months share a key exactly when year and month are equal |
| `MonthGrouping.SameKeySameMonth` | backend/lambda/buildLambda/calculateIncomeAndSpending.js:66-68 | two dated transactions share a key exactly when they fall in the same local calendar month |
| `MonthGrouping.Members` | backend/lambda/buildLambda/calculateIncomeAndSpending.js:65-75 | a month's partition is never longer than the input |
| `MonthGrouping.MonthKeysOfDated` | backend/lambda/buildLambda/calculateIncomeAndSpending.js:65-75 | the partition keys are exactly the keys of the dated transactions; undated ones are dropped |
| `MonthGrouping.MembersAreTheMonth` | backend/lambda/buildLambda/calculateIncomeAndSpending.js:65-75 | a partition holds exactly its month's transactions, each as often as in the input |
| `MonthGrouping.MembersNonEmpty` | backend/lambda/buildLambda/calculateIncomeAndSpending.js:69-72 | a partition exists exactly when some dated transaction falls in its month |
| `MonthGrouping.GroupStep` | backend/lambda/buildLambda/calculateIncomeAndSpending.js:66-73 | one `reduce` step keeps the partition invariant: a dated transaction joins its month's partition, created on first use |
| `MonthGrouping.PartitionByMonth` | backend/lambda/buildLambda/calculateIncomeAndSpending.js:65-75 | the `reduce` yields keys listed once each and, per key, exactly that month's transactions in input order |
| `MonthGrouping.AggregatePartitions` | backend/lambda/buildLambda/calculateIncomeAndSpending.js:76-78 | fails exactly when some partition has nothing to aggregate; otherwise every partition maps to its aggregate |
| `MonthGrouping.GroupTransactionsByMonth` | backend/lambda/buildLambda/calculateIncomeAndSpending.js:63-80 | throws exactly when some month has no contributing transaction; otherwise one aggregate per month with a dated transaction, each the aggregate of that month's entries |
| `SpendingWindow.WindowStart` | backend/lambda/buildLambda/calculateIncomeAndSpending.js:81-92 | the window rule with its cutoff at a given anchor always yields the first of some month |
| `SpendingWindow.GetEarliestFirstOfMonthWithin90Days` | backend/lambda/buildLambda/calculateIncomeAndSpending.js:81-92 | the code as written (cutoff 90 days before creation) yields the first of a month |
| `SpendingWindow.AsWrittenIsCreationMonth` | backend/lambda/buildLambda/calculateIncomeAndSpending.js:82-89 | as written, for a valid creation date the result is always the first of the creation month and the fallback branch is dead |
| `SpendingWindow.ComputeWindowStart` | backend/lambda/buildLambda/calculateIncomeAndSpending.js:81-92 | the corrected rule (cutoff 90 days before the run) yields the first of a month |
| `SpendingWindow.WindowStartBounds` | backend/lambda/buildLambda/calculateIncomeAndSpending.js:86-91 | the corrected start is never before the first of the month 90 days before the run, and is either that day or the first of the creation month |
| `SpendingWindow.AsWrittenReachesTooFarBack` | backend/lambda/buildLambda/calculateIncomeAndSpending.js:82-89 | for an account over 120 days old, the code's start lies before the corrected bound |
| `SpendingUtils.AddSpending` | frontend/src/components/common/spendingUtils.tsx:7-13 | the `forEach` over one summary adds each counted category's value divided by the divisor, and changes nothing else |
| `SpendingUtils.CalculateTotalSpending` | frontend/src/components/common/spendingUtils.tsx:5-16 | exactly the categories seen, except INCOME and TRANSFER_IN, each with its sum over all summaries |
| `SpendingUtils.CategoriesOf` | frontend/src/components/common/spendingUtils.tsx:7 | a category is seen exactly when some summary's spending record holds it |
| `SpendingUtils.CategoryTotalAppend` | frontend/src/components/common/spendingUtils.tsx:5-16 | the total over two runs of summaries is the sum of their totals |
| `SpendingUtils.ExcludedTotalIsZero` | frontend/src/components/common/spendingUtils.tsx:8-11 | income and incoming transfers are never totalled |
| `SpendingUtils.DaysInMonthTableValues` | frontend/src/components/common/spendingUtils.tsx:47-60 | every entry of `daysInMonth` is 28, 30 or 31 |
| `SpendingUtils.DaysInMonthTableIsCalendar` | frontend/src/components/common/spendingUtils.tsx:47-60 | the table is the calendar's month length, except February of a leap year, where it is one day short |
| `SpendingUtils.Divisor` | frontend/src/components/common/spendingUtils.tsx:24-34 | between 1 and 31 days: in the current month, today's day of the month; in any other month, that month's `daysInMonth` entry, so February always counts 28 days (one short in a leap year, by `DaysInMonthTableIsCalendar`) |
| `SpendingUtils.CalculateAverageSpendingFromMonthlySummarys` | frontend/src/components/common/spendingUtils.tsx:18-45 | exactly the categories seen (INCOME and TRANSFER_IN only with `includeAll`), each the sum of its amounts divided by the days of its summary's month |
| `SpendingUtils.AverageAtMostTotal` | frontend/src/components/common/spendingUtils.tsx:18-45 | with non-negative amounts, the daily average lies between 0 and the plain total |
| `SpendingUtils.DivideByDays` | frontend/src/components/common/spendingUtils.tsx:41 | a non-negative amount spread over at least one day is between 0 and the amount |
| `TransactionsSlice.SelectRegisteredSavingsPerAccounts` | frontend/src/features/transactions.ts:229-278 | returns the cascade's estimates (undefined when no branch returns) and writes what is left back into the record's category total |
| `TransactionsSlice.CascadeCaps` | frontend/src/features/transactions.ts:238-267 | a TFSA estimate never exceeds 7000 and an FHSA estimate never exceeds 8000 |
| `TransactionsSlice.CascadeConserves` | frontend/src/features/transactions.ts:238-276 | whenever a result is returned for a total, the three estimates add up to it |
| `TransactionsSlice.SmallTotalAllToTfsa` | frontend/src/features/transactions.ts:245-251 | with a TFSA, a total of at most 7000 goes to it whole |
| `TransactionsSlice.UndefinedResult` | frontend/src/features/transactions.ts:229-278 | the result is undefined exactly when there is no RRSP and neither the TFSA nor the FHSA could take what was left |
| `TransactionsSlice.RerunChangesEstimates` | frontend/src/features/transactions.ts:238-267 | running the cascade again on the record it already changed gives other estimates (7000/3000, then 3000/0) |
| `TransactionsSlice.EstimateRegisteredSavings` | frontend/src/features/transactions.ts:229-278 | the corrected selector: the same estimates without changing the record, adding up to the year's total |
| `TransactionsSlice.FailureMessage` | frontend/src/features/transactions.ts:166 | the message starts with `Failed to fetch accounts because ` |
| `TransactionsSlice.TransactionsState.constructor` | frontend/src/features/transactions.ts:26-40 | the initial state: nothing loaded or loading, no error, and the range from the first of the month to now |
| `TransactionsSlice.TransactionsState.RemoveError` | frontend/src/features/transactions.ts:152 | clears the error and nothing else |
| `TransactionsSlice.TransactionsState.SetCurrentDateRange` | frontend/src/features/transactions.ts:153-155 | sets the date range to the payload and nothing else |
| `TransactionsSlice.TransactionsState.GetTransactionsFulfilled` | frontend/src/features/transactions.ts:158-164 | sets the error from the payload, the transactions (none becomes empty) and the cursor (empty becomes none), and ends loading |
| `TransactionsSlice.TransactionsState.GetTransactionsRejected` | frontend/src/features/transactions.ts:165-169 | sets the failure message and the payload's transactions (none becomes empty), and ends loading; the cursor is kept |
| `TransactionsSlice.TransactionsState.GetTransactionsPending` | frontend/src/features/transactions.ts:170-173 | clears the error and starts loading |
| `TransactionsSlice.TransactionsState.GetDailySummaryFulfilled` | frontend/src/features/transactions.ts:174-179 | sets the error and the daily summaries from the payload, and ends daily loading |
| `TransactionsSlice.TransactionsState.GetDailySummaryRejected` | frontend/src/features/transactions.ts:180-182 | only ends daily loading; the error is kept |
| `TransactionsSlice.TransactionsState.GetDailySummaryPending` | frontend/src/features/transactions.ts:183-186 | clears the error and starts daily loading |
| `TransactionsSlice.TransactionsState.GetMonthlySummaryFulfilled` | frontend/src/features/transactions.ts:187-192 | sets the error and the monthly summaries from the payload, and ends monthly loading |
| `TransactionsSlice.TransactionsState.GetMonthlySummaryRejected` | frontend/src/features/transactions.ts:193-196 | sets the failure message and ends monthly loading |
| `TransactionsSlice.TransactionsState.GetMonthlySummaryPending` | frontend/src/features/transactions.ts:197-200 | clears the error and starts monthly loading |
| `Projection.RunWaterfall` | backend/api/app/routers/analyze.py:73-92 | no cash is left; no account receives more than its room; rooms stay non-negative; the brokerage receives a non-negative amount; each balance grows by exactly its contribution |
| `Projection.WaterfallConservesCash` | backend/api/app/routers/analyze.py:116-133 | with no tax withheld, the contributions add up to exactly the cash, whatever the rooms (negative initial rooms included) |
| `Projection.WaterfallWithholdsTax` | backend/api/app/routers/analyze.py:73-92 | in year 0, for any rooms and any tax rate, the accounts receive the RRSP share plus the remainder after tax |
| `Projection.Contribute` | backend/api/app/routers/analyze.py:73-92 | the contribution statements compute the waterfall and leave no cash |
| `Projection.SimulateYear` | backend/api/app/routers/analyze.py:101-138 | one loop iteration is one `Step`: new room, yield, contributions, then salary, bonus and expenses grow |
| `Projection.SimulateAccountBalances` | backend/api/app/routers/analyze.py:22-167 | the five lists are those of `Simulate` for `years` years (none for a negative count) |
| `Projection.SimulateShape` | backend/api/app/routers/analyze.py:140-155 | every list has one entry per year, and entry `i` holds the balances and net worth after year `i + 1` |
| `Projection.RoomsStayNonNegative` | backend/api/app/routers/analyze.py:74-128 | after any number of years, no contribution room is negative |
| `Projection.YearlyCashFullyInvested` | backend/api/app/routers/analyze.py:114-133 | from the first simulated year on, for any salary, bonus and rooms, the year's contributions add up to exactly its cash |
| `JsonFlatten.Values` | backend/lambda/src/gpt.ts:372 | `Object.values` keeps the number and order of the fields |
| `JsonFlatten.Flatten` | backend/lambda/src/gpt.ts:365-376 | the result holds only scalars |
| `JsonFlatten.FlattenObject` | backend/lambda/src/gpt.ts:371-373 | an object flattens as the array of its values |
| `JsonFlatten.FlattenAllAppend` | backend/lambda/src/gpt.ts:367-369 | `flatMap(flatten)` distributes over concatenation |
| `JsonFlatten.FlattenAllScalars` | backend/lambda/src/gpt.ts:374-375 | a list of scalars is its own flattening |
| `JsonFlatten.FlattenIdempotent` | backend/lambda/src/gpt.ts:365-376 | flattening the result again changes nothing |
| `JsonFlatten.FlattenHoldsLeaves` | backend/lambda/src/gpt.ts:365-376 | a scalar is in the result exactly when it occurs somewhere inside the value |
| `ChatBatching.JoinAppend` | backend/lambda/src/gpt.ts:256 | `join('')` of two runs is the concatenation of their joins |
| `ChatBatching.Contents` | backend/lambda/src/gpt.ts:241-242 | one content per chunk, in order: content `i` is chunk `i`'s `delta.content`, or `''` when it has none |
| `ChatBatching.Leftover` | backend/lambda/src/gpt.ts:252-264 | the buffer at the end holds fewer than a batch of contents |
| `ChatBatching.MessagesLength` | backend/lambda/src/gpt.ts:245-249 | the first few contents are sent alone, and a stream no longer than that is relayed content by content |
| `ChatBatching.NumberedAt` | backend/lambda/src/gpt.ts:248 | message `i` is sent with `sk` = `i.toString()` and is not final |
| `ChatBatching.RelayNumbering` | backend/lambda/src/gpt.ts:245-280 | every send carries the user and message ids, `sk` counts 0, 1, 2, ... without repeats, and exactly the last send is final |
| `ChatBatching.FirstFewSentAlone` | backend/lambda/src/gpt.ts:245-249 | each of the first three contents is sent alone, unflagged, numbered by its position |
| `ChatBatching.BatchesCover` | backend/lambda/src/gpt.ts:250-264 | the full batches and the leftover cover the buffered contents exactly |
| `ChatBatching.BatchAt` | backend/lambda/src/gpt.ts:255-259 | batch `j` is the join of exactly the contents `j*size .. j*size+size` |
| `ChatBatching.BatchesJoin` | backend/lambda/src/gpt.ts:252-277 | the batches joined, then the leftover, give back the joined buffered contents |
| `ChatBatching.RelayJoin` | backend/lambda/src/gpt.ts:233-281 | all relayed messages, the final one included, join to exactly the joined stream: nothing lost or repeated |
| `ChatBatching.BatchesSnoc` | backend/lambda/src/gpt.ts:252-264 | one more content either completes a batch or joins the leftover |
| `ChatBatching.ProgressFirstFew` | backend/lambda/src/gpt.ts:245-249 | while fewer than the first few were sent, the next content is sent alone |
| `ChatBatching.ProgressBatch` | backend/lambda/src/gpt.ts:250-265 | afterwards a content is buffered, and a full buffer is sent joined and emptied |
| `ChatBatching.RelayChatStream` | backend/lambda/src/gpt.ts:233-281 | the loop's sends are the reference relay log, and the answer is the whole stream joined |
| `ChatBatching.ParsedContentsMembers` | backend/lambda/src/gpt.ts:152-183 | a content is collected exactly when some read yields a chunk that parses to it; reads without a value or that fail to parse add nothing |
| `ChatBatching.ParsedContentsAppend` | backend/lambda/src/gpt.ts:148-185 | reads are taken in order: the contents of two runs of reads are those of the first, then those of the second |
| `ChatBatching.ProcessStreamedResponse` | backend/lambda/src/gpt.ts:130-193 | the sends are the relay log of the parsed contents (limits read as at least 0 and at least 1), and the returned list is exactly the messages sent, in order |
| `ChatBatching.Truncate` | backend/lambda/src/gpt.ts:223 | `substring(0, 20000)`: the prefix of length min(n, 20000) |
| `ChatBatching.TruncateIdempotent` | backend/lambda/src/gpt.ts:223 | a short prompt is left alone, and truncating twice is truncating once |
| `ChatBatching.BuildRequest` | backend/lambda/src/gpt.ts:203-229 | the user message is the truncated prompt and streaming is on; the live model is chosen exactly for news and analysis queries; the news and technical prompts exactly for their types; otherwise the assistant subject is the focus, or "Finance" for none or All |
| `ChatBatching.CompleteChatFromPrompt` | backend/lambda/src/gpt.ts:195-282 | the request is `BuildRequest`; without live data, the relay log and the joined stream; with live data, one empty final send and the answer's content |

## Left out

- **Time zones.** Local and UTC calendar days are not told apart. The
  aggregator keys days by the UTC date; grouping and the window use local
  dates. Both enter the model as parameters (`dayOf`, `localDayOf`) or as
  civil dates.
- **Numbers and parsing.** Amounts and rates are real numbers, not IEEE
  doubles. `parseFloat`, `toFixed(2)` and `new Date(text)` are parameters.
  `NaN` is not modelled: a non-numeric amount is whatever `parseAmount`
  returns.
- **Infrastructure.** The model leaves out:
  - DynamoDB, KMS decryption, AppSync signing, the Plaid and OpenAI or
    Perplexity HTTP calls, and `uploadSpendingSummaries`;
  - the orchestration in `processUsersInBatches` and
    `calculateIncomeAndSpending` (these are I/O and concurrency);
  - logging;
  - Redux thunks and `createSelector` memoization.
- **Clock.** `Date.now()`, `new Date()` and `date.today()` are parameters,
  including `delta_fraction` as the fraction of the year elapsed since
  2024-01-01.
- **Send order.** `sendChatToUI` is not awaited. The model takes the sends in
  the order they are issued, not the order they arrive.
- `Chunking.ChunkArray`: a chunk size of 0 or less loops forever in the
  source. The model requires a positive size; the only caller passes 100.
- **Account types.** `identifyAccountType` is not part of this model. The
  three account lookups are booleans.
- **`calculateTotalSpendingInCategories`** is not part of this model. The
  selector takes the category totals as the record it receives.
- **Object key order.** `Object.entries` and `Object.values` list integer-like
  keys first, in ascending order, and then the other keys in insertion order.
  The month keys (`2024-1`) and day keys (`2024-01-05`) are never integer-like,
  so the grouping and the daily summaries are in insertion order. The JSON
  object fields that `flatten` reads are modelled in the order `Object.values`
  lists them, whatever that order is. A free-form answer can have keys such
  as `"1"` or `"2"`, and those come first.
- `SpendingAggregate.AggregateSpendingByCategory`: unparsable dates are not modelled. `dayOf` is total, so the `RangeError` that `toISOString()` throws for a truthy date that does not parse is not captured. It is thrown even for a transaction without a category.
- `MonthGrouping.GroupTransactionsByMonth`: unparsable dates are not modelled. `localDayOf` is total, so the `NaN-NaN` month key that such a date gets is not captured.
- `SpendingWindow.AsWrittenIsCreationMonth`: it holds only for a valid creation date. An absent `created_at` becomes `''` through the default in `mapDdbResponseToItem`, and then an Invalid Date. For that date the fallback branch is taken, and the model does not capture this.
- **JSON objects** (`JsonFlatten.Json`): an object is a list of key/value pairs, so it could hold a key twice. `JSON.parse` never produces that: the last value wins, in the first key's position. The model places no constraint of this kind, and every property proved about `Flatten` holds for any list of pairs.
- **String length.** `substring` counts UTF-16 code units. The model counts
  characters.
- **Parse errors in `completeChatFromPrompt`.** A chunk that fails to parse
  inside the `for await` loop throws and aborts the call. The model takes
  already-parsed chunks.
- `ChatBatching.ProcessStreamedResponse`: a `Response` without a body throws `TypeError('Stream is not readable')` before any read or send (gpt.ts:137-140). The model takes a readable stream, so its final send is promised for every input it accepts, and this error path is not captured.
- **Catch in `processStreamedResponse`.** Its `catch` is modelled as an
  `Unparsable` read that is skipped.
- **System prompts.** The text of the news and technical prompts is not
  modelled. Only which prompt is chosen is.
- **`response_format`** is not modelled; it is a zod schema handed to the
  client.
- **Other `gpt.ts` functions** (`getTechnicalWordsWhereWeCanGoDeeper` and the
  other request helpers) are calls to the model API and are not part of this
  model.
- `Projection.SimulateAccountBalances`: its local variables are grouped in a
  `State` record. The loop body and the two copies of the contribution
  statements became the methods `SimulateYear` and `Contribute`.
- `SpendingAggregate.NormalizeRate`: it carries no postcondition. Its sign
  and infinity facts are stated in `RateSign` and `RateRecoversTotal`.
- `TransactionsSlice.SelectRegisteredSavingsPerAccounts`: the memoized
  re-runs of the selector are not modelled. `RerunChangesEstimates` states
  what a second run on the changed record returns.

## Findings

| source | as written | input that shows it | evidently intended | confidence | as-written member | corrected member |
|---|---|---|---|---|---|---|
| backend/lambda/buildLambda/calculateIncomeAndSpending.js:81-92 | The cutoff is 90 days before the creation date itself, so for a valid creation date the first of the creation month always passes and the fallback is dead. | An account created 2024-01-15, with a run on 2024-06-01. The code starts the window at 2024-01-01. The rule gives 2024-03-01. | The cutoff is 90 days before the time of the run, so the window never reaches back further than the first of that month. | not executed; proved on the model | `SpendingWindow.AsWrittenReachesTooFarBack` | `SpendingWindow.WindowStartBounds` |
| backend/lambda/buildLambda/mappers/Transactions.js:5-17 | The mapper never copies `personal_finance_category`. The aggregation (calculateIncomeAndSpending.js:24-25) skips every transaction without one. | Any stored transaction: a record with `transaction_id`, `amount` 12.5, `date` 2024-01-05 and a category map with `primary` FOOD. It contributes nothing, and aggregating its month throws "No valid transactions found to aggregate." | The mapper copies the category, so that a record with an amount, a date and a category contributes. | not executed; proved on the model | `SpendingAggregate.MappedRecordsNeverContribute` | `SpendingAggregate.CorrectedMappingContributes` |
| frontend/src/features/transactions.ts:238-267 | The selector subtracts the filled caps from the totals record that the memoized `selectRegisteredSavingsThisYear` returns. Every later run of the selector on that cached record sees a smaller total. | A total of 10000 with a TFSA, an FHSA and an RRSP. The first run gives TFSA 7000 and FHSA 3000. A second run, after the accounts list changes, gives TFSA 3000 and FHSA 0. | Compute the estimates without changing the record, so that every run splits the same year's total. | not executed; proved on the model | `TransactionsSlice.RerunChangesEstimates` | `TransactionsSlice.EstimateRegisteredSavings` |
