/**
 * The transaction record of the API and the two mappers of
 * `mappers/Transactions.js`: DynamoDB item to `Transaction`, and
 * `Transaction` to the text block handed to the chat model.
 */
module TransactionMapper {
  import opened Wrappers
  import opened DynamoRecords

  /** `personal_finance_category` of the API; only `primary` is ever read. */
  datatype FinanceCategory = FinanceCategory(primary: Option<string>)

  /**
   * The API `Transaction`. Optional string fields are `None` for JavaScript
   * `null` or `undefined`; `personal_finance_category` is `None` when the
   * property is absent from the object.
   */
  datatype Transaction = Transaction(
    typename: string,
    transaction_id: string,
    account_id: Option<string>,
    amount: Option<string>,
    name: Option<string>,
    iso_currency_code: Option<string>,
    date: Option<string>,
    payment_channel: Option<string>,
    transaction_type: Option<string>,
    personal_finance_category: Option<FinanceCategory>)

  /** Reading `item.transaction_id.S` throws when the attribute itself is absent. */
  datatype MappingError = MissingTransactionId

  /** The attributes `mapDynamoDBToTransaction` reads. */
  const TransactionAttributes: set<string> :=
    {"transaction_id", "account_id", "amount", "name", "iso_currency_code", "date",
     "payment_channel", "transaction_type"}

  /** `mapDynamoDBToTransaction`. */
  function MapDynamoDBToTransaction(item: Record): (r: Result<Transaction, MappingError>)
    ensures r.Failure? <==> "transaction_id" !in item
    ensures r.Success? ==>
      var t := r.value;
      && t.typename == "Transaction"
      && t.transaction_id == (if Truthy(item["transaction_id"].S) then item["transaction_id"].S.value else "")
      && (t.account_id.Some? <==> Truthy(StringAttr(item, "account_id")))
      && (t.amount.Some? <==> Truthy(NumberAttr(item, "amount")))
      && (t.name.Some? <==> Truthy(StringAttr(item, "name")))
      && (t.iso_currency_code.Some? <==> Truthy(StringAttr(item, "iso_currency_code")))
      && (t.date.Some? <==> Truthy(StringAttr(item, "date")))
      && (t.payment_channel.Some? <==> Truthy(StringAttr(item, "payment_channel")))
      && (t.transaction_type.Some? <==> Truthy(StringAttr(item, "transaction_type")))
      && (t.account_id.Some? ==> t.account_id == StringAttr(item, "account_id"))
      && (t.amount.Some? ==> t.amount == NumberAttr(item, "amount"))
      && (t.name.Some? ==> t.name == StringAttr(item, "name"))
      && (t.iso_currency_code.Some? ==> t.iso_currency_code == StringAttr(item, "iso_currency_code"))
      && (t.date.Some? ==> t.date == StringAttr(item, "date"))
      && (t.payment_channel.Some? ==> t.payment_channel == StringAttr(item, "payment_channel"))
      && (t.transaction_type.Some? ==> t.transaction_type == StringAttr(item, "transaction_type"))
      && t.personal_finance_category.None?
  {
    if "transaction_id" !in item then Failure(MissingTransactionId)
    else
      Success(Transaction(
        "Transaction",
        item["transaction_id"].S.GetOr(""),
        OrNull(StringAttr(item, "account_id")),
        OrNull(NumberAttr(item, "amount")),
        OrNull(StringAttr(item, "name")),
        OrNull(StringAttr(item, "iso_currency_code")),
        OrNull(StringAttr(item, "date")),
        OrNull(StringAttr(item, "payment_channel")),
        OrNull(StringAttr(item, "transaction_type")),
        None))
  }

  /** Only the eight attributes the mapper names reach the mapped transaction. */
  lemma MappingReadsOnlyItsAttributes(a: Record, b: Record)
    requires AgreeOn(a, b, TransactionAttributes)
    ensures MapDynamoDBToTransaction(a) == MapDynamoDBToTransaction(b)
  {
    assert "transaction_id" in TransactionAttributes;
    assert "account_id" in TransactionAttributes && "amount" in TransactionAttributes;
    assert "name" in TransactionAttributes && "iso_currency_code" in TransactionAttributes;
    assert "date" in TransactionAttributes && "payment_channel" in TransactionAttributes;
    assert "transaction_type" in TransactionAttributes;
  }

  /** `items.map(mapDynamoDBToTransaction)`: the first item without `transaction_id` throws. */
  function MapAll(items: seq<Record>): (r: Result<seq<Transaction>, MappingError>)
    ensures r.Failure? <==> exists i :: 0 <= i < |items| && "transaction_id" !in items[i]
    ensures r.Success? ==> |r.value| == |items|
    ensures r.Success? ==> forall i :: 0 <= i < |items| ==> MapDynamoDBToTransaction(items[i]) == Success(r.value[i])
  {
    if items == [] then Success([])
    else
      match MapDynamoDBToTransaction(items[0])
      case Failure(e) => Failure(e)
      case Success(t) =>
        var rest := MapAll(items[1..]);
        assert forall i :: 1 <= i < |items| ==> items[i] == items[1..][i - 1];
        if rest.Failure? then Failure(rest.error) else Success([t] + rest.value)
  }

  /**
   * The mapper as evidently intended: as `mapDynamoDBToTransaction`, but the
   * category the aggregation needs is copied from the map attribute
   * `personal_finance_category` (its `primary` string member).
   */
  function MapDynamoDBToTransactionWithCategory(item: Record): (r: Result<Transaction, MappingError>)
    ensures r.Failure? <==> MapDynamoDBToTransaction(item).Failure?
    ensures r.Success? ==>
      && r.value.(personal_finance_category := None) == MapDynamoDBToTransaction(item).value
      && (r.value.personal_finance_category.Some? <==> "personal_finance_category" in item && item["personal_finance_category"].M.Some?)
      && (r.value.personal_finance_category.Some? ==>
           r.value.personal_finance_category.value.primary == OrNull(NestedStringAttr(item, "personal_finance_category", "primary")))
  {
    match MapDynamoDBToTransaction(item)
    case Failure(e) => Failure(e)
    case Success(t) =>
      var category :=
        if "personal_finance_category" in item && item["personal_finance_category"].M.Some? then
          Some(FinanceCategory(OrNull(NestedStringAttr(item, "personal_finance_category", "primary"))))
        else None;
      Success(t.(personal_finance_category := category))
  }

  /** `value || 'N/A'` */
  function OrNotAvailable(v: Option<string>): (r: string)
    ensures r == "N/A" <==> !Truthy(v) || v.value == "N/A"
    ensures Truthy(v) ==> r == v.value
  {
    if Truthy(v) then v.value else "N/A"
  }

  /**
   * The amount cell: "$" and the amount with two decimals, or "N/A".
   * `toFixed2` stands for `parseFloat(a).toFixed(2)`.
   */
  function AmountText(amount: Option<string>, toFixed2: string -> string): (r: string)
    ensures Truthy(amount) ==> r == "$" + toFixed2(amount.value)
    ensures !Truthy(amount) ==> r == "N/A"
  {
    if Truthy(amount) then "$" + toFixed2(amount.value) else "N/A"
  }

  /** One `chatInput +=` step: a label, its value and the line break. */
  function Line(caption: string, value: string): string {
    caption + value + "\n"
  }

  /** `mapTransactionToChatInput`: five labelled lines appended one after the other. */
  function MapTransactionToChatInput(t: Transaction, toFixed2: string -> string): (r: string)
    ensures |r| > 9 && r[..9] == "(Amount: "
    ensures r[|r| - 2..] == ")\n"
  {
    Line("(Amount: ", AmountText(t.amount, toFixed2))
    + Line("Name: ", OrNotAvailable(t.name))
    + Line("Currency: ", OrNotAvailable(t.iso_currency_code))
    + Line("Date: ", OrNotAvailable(t.date))
    + Line("Transaction Type: ", OrNotAvailable(t.transaction_type) + ")")
  }

  /** JavaScript `s.split('\n')`. */
  function SplitLines(s: string): (lines: seq<string>)
    ensures |lines| >= 1
    decreases |s|
  {
    if '\n' !in s then [s]
    else
      var i := NewlineAt(s);
      [s[..i]] + SplitLines(s[i + 1..])
  }

  function NewlineAt(s: string): (i: nat)
    requires '\n' in s
    ensures i < |s| && s[i] == '\n' && '\n' !in s[..i]
  {
    if s[0] == '\n' then 0 else 1 + NewlineAt(s[1..])
  }

  lemma {:induction false} NewlineAtFirst(s: string, k: nat)
    requires k < |s| && s[k] == '\n' && '\n' !in s[..k]
    ensures NewlineAt(s) == k
    decreases k
  {
    if k > 0 {
      assert s[0] == s[..k][0];
      assert s[1..][..k - 1] == s[1..k];
      assert forall j :: 0 <= j < k - 1 ==> s[1..k][j] == s[..k][j + 1];
      NewlineAtFirst(s[1..], k - 1);
    }
  }

  lemma SplitAfterLine(line: string, rest: string)
    requires '\n' !in line
    ensures SplitLines(line + "\n" + rest) == [line] + SplitLines(rest)
  {
    var s := line + "\n" + rest;
    assert s[..|line|] == line;
    NewlineAtFirst(s, |line|);
    assert s[|line| + 1..] == rest;
  }

  predicate NoNewline(v: Option<string>) {
    v.Some? ==> '\n' !in v.value
  }

  /**
   * When no field holds a newline, the chat text is exactly five lines, each
   * a label followed by the field (or "N/A"), the last one closing the parenthesis.
   */
  lemma ChatInputLines(t: Transaction, toFixed2: string -> string)
    requires Truthy(t.amount) ==> '\n' !in toFixed2(t.amount.value)
    requires NoNewline(t.name) && NoNewline(t.iso_currency_code)
    requires NoNewline(t.date) && NoNewline(t.transaction_type)
    ensures SplitLines(MapTransactionToChatInput(t, toFixed2)) ==
      [ "(Amount: " + AmountText(t.amount, toFixed2),
        "Name: " + OrNotAvailable(t.name),
        "Currency: " + OrNotAvailable(t.iso_currency_code),
        "Date: " + OrNotAvailable(t.date),
        "Transaction Type: " + OrNotAvailable(t.transaction_type) + ")",
        "" ]
  {
    var l1 := "(Amount: " + AmountText(t.amount, toFixed2);
    var l2 := "Name: " + OrNotAvailable(t.name);
    var l3 := "Currency: " + OrNotAvailable(t.iso_currency_code);
    var l4 := "Date: " + OrNotAvailable(t.date);
    var l5 := "Transaction Type: " + (OrNotAvailable(t.transaction_type) + ")");
    Associative("Transaction Type: ", OrNotAvailable(t.transaction_type), ")");
    var L1, L2, L3, L4, L5 := l1 + "\n", l2 + "\n", l3 + "\n", l4 + "\n", l5 + "\n";
    assert MapTransactionToChatInput(t, toFixed2) == L1 + L2 + L3 + L4 + L5;
    Associative(L1 + L2 + L3, L4, L5);
    Associative(L1 + L2, L3, L4 + L5);
    Associative(L1, L2, L3 + (L4 + L5));
    assert '\n' !in l1 && '\n' !in l2 && '\n' !in l3 && '\n' !in l4 && '\n' !in l5;
    SplitFiveLines(l1, l2, l3, l4, l5);
  }

  lemma SplitFiveLines(l1: string, l2: string, l3: string, l4: string, l5: string)
    requires '\n' !in l1 && '\n' !in l2 && '\n' !in l3 && '\n' !in l4 && '\n' !in l5
    ensures SplitLines((l1 + "\n") + ((l2 + "\n") + ((l3 + "\n") + ((l4 + "\n") + (l5 + "\n")))))
         == [l1, l2, l3, l4, l5, ""]
  {
    var tail := [""];
    assert SplitLines("") == tail;
    assert l5 + "\n" == l5 + "\n" + "";
    SplitAfterLine(l5, "");
    var r5 := l5 + "\n";
    SplitAfterLine(l4, r5);
    var r4 := (l4 + "\n") + r5;
    SplitAfterLine(l3, r4);
    var r3 := (l3 + "\n") + r4;
    SplitAfterLine(l2, r3);
    var r2 := (l2 + "\n") + r3;
    SplitAfterLine(l1, r2);
    ConsSix(l1, l2, l3, l4, l5, "");
  }

  lemma ConsSix<T>(a: T, b: T, c: T, d: T, e: T, f: T)
    ensures [a] + ([b] + ([c] + ([d] + ([e] + [f])))) == [a, b, c, d, e, f]
  {
  }

  lemma Associative(a: string, b: string, c: string)
    ensures a + b + c == a + (b + c)
  {
  }
}
