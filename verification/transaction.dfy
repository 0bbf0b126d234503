/**
 * The Transaction of the ledger: timestamp, category, amount and description.
 * Its order compares amounts only and is completed by `functools.total_ordering`
 * from `__lt__` and `__eq__`.
 */
module Transactions {
  import opened Results
  import opened DecimalText
  import opened Timestamps
  import opened Records

  /** The amount is a Decimal in hundredths: positive for income, negative for expense. */
  datatype Transaction = Transaction(timestamp: Timestamp, category: string, amount: int, description: string)

  predicate IsIncome(t: Transaction) { t.amount > 0 }

  predicate IsExpense(t: Transaction) { t.amount < 0 }

  /** `__bool__`: a transaction is truthy when its amount is non-zero. */
  predicate Truthy(t: Transaction) { t.amount != 0 }

  /** Every transaction is exactly one of income, expense or falsy. */
  lemma Classification(t: Transaction)
    ensures Truthy(t) <==> IsIncome(t) || IsExpense(t)
    ensures !(IsIncome(t) && IsExpense(t))
  {
  }

  /** `__eq__` compares the four fields. */
  predicate Eq(a: Transaction, b: Transaction) {
    a.timestamp == b.timestamp && a.category == b.category
    && a.amount == b.amount && a.description == b.description
  }

  predicate Lt(a: Transaction, b: Transaction) { a.amount < b.amount }

  predicate Le(a: Transaction, b: Transaction) { Lt(a, b) || Eq(a, b) }

  predicate Gt(a: Transaction, b: Transaction) { !Lt(a, b) && !Eq(a, b) }

  predicate Ge(a: Transaction, b: Transaction) { !Lt(a, b) }

  /** Equality is field-wise equality; on distinct amounts the order is the amounts'. */
  lemma OrderOnAmounts(a: Transaction, b: Transaction)
    ensures Eq(a, b) <==> a == b
    ensures a.amount != b.amount ==>
      (Le(a, b) <==> a.amount < b.amount) && (Gt(a, b) <==> a.amount > b.amount)
    ensures Ge(a, b) <==> a.amount >= b.amount
  {
  }

  /**
   * Two different transactions with the same amount: each is `>` the other and
   * neither is `<=` the other, because the derived `<=` needs `__eq__`.
   */
  lemma TiesAreGreater(a: Transaction, b: Transaction)
    requires a.amount == b.amount && a != b
    ensures Gt(a, b) && Gt(b, a)
    ensures !Le(a, b) && !Le(b, a)
    ensures Ge(a, b) && Ge(b, a) && !Lt(a, b)
  {
  }

  /** `to_dict`: four text values. */
  function ToDict(t: Transaction): (r: Record)
    ensures r.Keys == {"timestamp", "category", "amount", "description"}
    ensures forall k :: k in r ==> r[k].Text?
  {
    map["timestamp" := Text(ToIsoFormat(t.timestamp)),
        "category" := Text(t.category),
        "amount" := Text(MoneyText(t.amount)),
        "description" := Text(t.description)]
  }

  /**
   * `from_dict`: the timestamp is read first, then the amount, then category and
   * description; the first failure is raised.
   */
  function FromDict(data: Record): (r: Result<Transaction>)
    ensures TimestampField(data).Err? ==> r == Err(ValueError(InvalidTimestamp))
    ensures TimestampField(data).Ok? && AmountField(data).Err? ==> r == Err(AmountField(data).error)
    ensures TimestampField(data).Ok? && "amount" !in data ==> r == Err(KeyError("amount"))
    ensures TimestampField(data).Ok? && AmountField(data).Ok? && "category" !in data ==>
      r == Err(KeyError("category"))
    ensures (TimestampField(data).Ok? && AmountField(data).Ok? && TextField(data, "category").Ok?
             && "description" !in data) ==> r == Err(KeyError("description"))
    ensures r.Ok? <==> (TimestampField(data).Ok? && AmountField(data).Ok?
                        && TextField(data, "category").Ok? && TextField(data, "description").Ok?)
    ensures r.Ok? ==>
      && "timestamp" in data && data["timestamp"].Text?
      && FromIsoFormat(data["timestamp"].s) == Ok(r.value.timestamp)
      && "category" in data && data["category"] == Text(r.value.category)
      && "description" in data && data["description"] == Text(r.value.description)
      && AmountField(data) == Ok(r.value.amount)
    ensures r.Err? && r.error.KeyError? ==> r.error.key in {"amount", "category", "description"} && r.error.key !in data
  {
    var ts :- TimestampField(data);
    var amount :- AmountField(data);
    var category :- TextField(data, "category");
    var description :- TextField(data, "description");
    Ok(Transaction(ts, category, amount, description))
  }

  /** `from_dict(t.to_dict()) == t`. */
  lemma DictRoundTrip(t: Transaction)
    ensures FromDict(ToDict(t)) == Ok(t)
  {
    var d := ToDict(t);
    WrittenFieldsRead(d, t.timestamp, t.amount, t.category, t.description);
  }

  /**
   * Amount text that is not a number (such as "abc") is the ValueError "Invalid amount",
   * after a good timestamp and whatever the other fields hold.
   */
  lemma AmountTextRejected(t: Timestamp, amount: string, category: string, description: string)
    requires |amount| > 0 && !IsDigit(amount[0]) && amount[0] !in "+-."
    ensures FromDict(map["timestamp" := Text(ToIsoFormat(t)), "amount" := Text(amount),
                         "category" := Text(category), "description" := Text(description)])
            == Err(ValueError(InvalidAmount))
  {
    var d := map["timestamp" := Text(ToIsoFormat(t)), "amount" := Text(amount),
                 "category" := Text(category), "description" := Text(description)];
    IsoRoundTrip(t);
    NotANumber(amount);
    assert TimestampField(d) == Ok(t);
    assert AmountField(d) == Err(ValueError(InvalidAmount));
  }
}
