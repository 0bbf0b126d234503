/**
 * The Transaction of the core package: the ledger's transaction plus an optional
 * database id. All four comparisons are written out and compare amounts only.
 */
module CoreTransactions {
  import opened Results
  import opened DecimalText
  import opened Timestamps
  import opened Records
  import Legacy = Transactions

  datatype Transaction = Transaction(id: Option<int>, timestamp: Timestamp, category: string,
                                     amount: int, description: string)

  /** `is_income`: a positive amount. */
  predicate IsIncome(t: Transaction) { t.amount > 0 }

  /** `is_expense`: a negative amount. */
  predicate IsExpense(t: Transaction) { t.amount < 0 }

  /** `__bool__`: a non-zero amount. */
  predicate Truthy(t: Transaction) { t.amount != 0 }

  /**
   * Every transaction is exactly one of income, expense or falsy, and it is classified
   * as the ledger's transaction with the same fields is.
   */
  lemma Classification(t: Transaction)
    ensures Truthy(t) <==> IsIncome(t) || IsExpense(t)
    ensures !(IsIncome(t) && IsExpense(t))
    ensures IsIncome(t) == Legacy.IsIncome(WithoutId(t)) && IsExpense(t) == Legacy.IsExpense(WithoutId(t))
    ensures Truthy(t) == Legacy.Truthy(WithoutId(t))
  {
  }

  /** `__eq__` compares the id and the four other fields. */
  predicate Eq(a: Transaction, b: Transaction) {
    a.id == b.id && a.timestamp == b.timestamp && a.category == b.category
    && a.amount == b.amount && a.description == b.description
  }

  predicate Lt(a: Transaction, b: Transaction) { a.amount < b.amount }

  predicate Le(a: Transaction, b: Transaction) { a.amount <= b.amount }

  predicate Gt(a: Transaction, b: Transaction) { a.amount > b.amount }

  predicate Ge(a: Transaction, b: Transaction) { a.amount >= b.amount }

  /**
   * The comparisons form a total preorder that ignores everything but the amount:
   * transactions differing in id alone are not equal, yet each is `<=` and `>=` the other.
   */
  lemma AmountPreorder(a: Transaction, b: Transaction, c: Transaction)
    ensures Eq(a, b) <==> a == b
    ensures Le(a, a) && (Le(a, b) || Le(b, a))
    ensures Le(a, b) && Le(b, c) ==> Le(a, c)
    ensures Lt(a, b) <==> !Ge(a, b)
    ensures Gt(a, b) <==> Lt(b, a)
    ensures Ge(a, b) <==> Le(b, a)
    ensures Le(a, b) <==> Lt(a, b) || a.amount == b.amount
  {
  }

  /** The ledger's transaction with the id dropped. */
  function WithoutId(t: Transaction): (r: Legacy.Transaction)
    ensures r.amount == t.amount && r.timestamp == t.timestamp
    ensures r.category == t.category && r.description == t.description
  {
    Legacy.Transaction(t.timestamp, t.category, t.amount, t.description)
  }

  /**
   * The two classes agree on `<` and `>=`; on `<=` and `>` they part exactly on a tie
   * between transactions whose fields (other than the id) differ.
   */
  lemma OrdersAgreeExceptTies(a: Transaction, b: Transaction)
    ensures Lt(a, b) <==> Legacy.Lt(WithoutId(a), WithoutId(b))
    ensures Ge(a, b) <==> Legacy.Ge(WithoutId(a), WithoutId(b))
    ensures Le(a, b) != Legacy.Le(WithoutId(a), WithoutId(b)) <==>
      a.amount == b.amount && WithoutId(a) != WithoutId(b)
    ensures Gt(a, b) != Legacy.Gt(WithoutId(a), WithoutId(b)) <==>
      a.amount == b.amount && WithoutId(a) != WithoutId(b)
  {
  }

  /** `to_dict`: the legacy four text values, plus the id as an int when there is one. */
  function ToDict(t: Transaction): (r: Record)
    ensures r.Keys == {"timestamp", "category", "amount", "description"}
                      + (if t.id.Some? then {"transaction_id"} else {})
    ensures t.id.Some? ==> r["transaction_id"] == Int(t.id.value)
    ensures forall k :: k in r && k != "transaction_id" ==> r[k] == Legacy.ToDict(WithoutId(t))[k]
  {
    var base := map["timestamp" := Text(ToIsoFormat(t.timestamp)),
                    "category" := Text(t.category),
                    "amount" := Text(MoneyText(t.amount)),
                    "description" := Text(t.description)];
    if t.id.Some? then base["transaction_id" := Int(t.id.value)] else base
  }

  /**
   * `from_dict`: the optional id is read first, then the timestamp, the amount,
   * the category and the description; the first failure is raised.
   */
  function FromDict(data: Record): (r: Result<Transaction>)
    ensures IdField(data).Err? ==> r == Err(ValueError(InvalidTransactionId))
    ensures IdField(data).Ok? && TimestampField(data).Err? ==> r == Err(ValueError(InvalidTimestamp))
    ensures IdField(data).Ok? && TimestampField(data).Ok? && AmountField(data).Err? ==>
      r == Err(AmountField(data).error)
    ensures IdField(data).Ok? && TimestampField(data).Ok? && AmountField(data).Ok? && "category" !in data ==>
      r == Err(KeyError("category"))
    ensures (IdField(data).Ok? && TimestampField(data).Ok? && AmountField(data).Ok?
             && TextField(data, "category").Ok? && "description" !in data) ==> r == Err(KeyError("description"))
    ensures r.Ok? <==> IdField(data).Ok? && Legacy.FromDict(data).Ok?
    ensures r.Ok? ==>
      && IdField(data) == Ok(r.value.id)
      && Legacy.FromDict(data) == Ok(WithoutId(r.value))
    ensures r.Err? && r.error.KeyError? ==> r.error.key in {"amount", "category", "description"} && r.error.key !in data
  {
    var id :- IdField(data);
    var ts :- TimestampField(data);
    var amount :- AmountField(data);
    var category :- TextField(data, "category");
    var description :- TextField(data, "description");
    Ok(Transaction(id, ts, category, amount, description))
  }

  /** `from_dict` builds the transaction out of what each field reads as. */
  lemma FieldsBuild(d: Record, t: Transaction)
    requires IdField(d) == Ok(t.id) && TimestampField(d) == Ok(t.timestamp) && AmountField(d) == Ok(t.amount)
    requires TextField(d, "category") == Ok(t.category) && TextField(d, "description") == Ok(t.description)
    ensures FromDict(d) == Ok(t)
  {
  }

  /** What `to_dict` writes under each key, and the id read back from it. */
  lemma ToDictEntries(t: Transaction)
    ensures var d := ToDict(t);
      && "timestamp" in d && d["timestamp"] == Text(ToIsoFormat(t.timestamp))
      && "amount" in d && d["amount"] == Text(MoneyText(t.amount))
      && "category" in d && d["category"] == Text(t.category)
      && "description" in d && d["description"] == Text(t.description)
      && IdField(d) == Ok(t.id)
  {
    var base := map["timestamp" := Text(ToIsoFormat(t.timestamp)),
                    "category" := Text(t.category),
                    "amount" := Text(MoneyText(t.amount)),
                    "description" := Text(t.description)];
    if t.id.Some? {
      var d := base["transaction_id" := Int(t.id.value)];
      assert ToDict(t) == d;
      assert "transaction_id" in d && d["transaction_id"] == Int(t.id.value);
    } else {
      assert ToDict(t) == base;
      assert "transaction_id" !in base;
    }
  }

  /** `from_dict(t.to_dict()) == t`, with or without an id. */
  lemma DictRoundTrip(t: Transaction)
    ensures FromDict(ToDict(t)) == Ok(t)
  {
    var d := ToDict(t);
    ToDictEntries(t);
    WrittenFieldsRead(d, t.timestamp, t.amount, t.category, t.description);
    FieldsBuild(d, t);
  }
}
