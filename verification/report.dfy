/**
 * ReportGenerator: income, expense and balance totals over a calendar month or year,
 * and the rows of the two-column CSV export.
 */
module Reports {
  import opened Results
  import opened Seqs
  import opened DecimalText
  import opened Timestamps
  import opened Transactions
  import opened Ledgers

  /** The summary dict, whose keys are "income", "expenses" and "balance" in that order. */
  datatype Summary = Summary(income: int, expenses: int, balance: int)

  /** The dict items in insertion order. */
  function Items(s: Summary): (r: seq<(string, int)>)
    ensures |r| == 3 && r[0].0 == "income" && r[1].0 == "expenses" && r[2].0 == "balance"
  {
    [("income", s.income), ("expenses", s.expenses), ("balance", s.balance)]
  }

  /** Totals over the filtered transactions. */
  function SummaryOf(txs: seq<Transaction>): (r: Summary)
    ensures r.income >= 0 && r.expenses <= 0 && r.balance == r.income + r.expenses
    ensures r.balance == Balance(txs)
    ensures r.income == Balance(Filter(txs, IsIncome)) && r.expenses == Balance(Filter(txs, IsExpense))
  {
    IncomeIsFilteredSum(txs);
    Summary(Income(txs), Expenses(txs), Income(txs) + Expenses(txs))
  }

  function Midnight(year: int, month: int, day: int): DateTime {
    DateTime(year, month, day, 0, 0, 0, 0)
  }

  /**
   * The month window `[year-month-01T00:00, first of the next month]`; December
   * rolls over to January of the next year. Either bound may be out of the calendar.
   */
  function MonthWindow(year: int, month: int): (r: Result<(Timestamp, Timestamp)>)
    requires 1 <= month <= 12
    ensures r.Ok? <==> 1 <= year <= 9999 && (month < 12 || year < 9999)
    ensures r.Err? ==> r.error == ValueError(InvalidDate)
    ensures r.Ok? ==> r.value.0 == Midnight(year, month, 1)
    ensures r.Ok? && month < 12 ==> r.value.1 == Midnight(year, month + 1, 1)
    ensures r.Ok? && month == 12 ==> r.value.1 == Midnight(year + 1, 1, 1)
  {
    var start :- FromComponents(year, month, 1, 0, 0, 0, 0);
    var end :- FromComponents(year + (if month == 12 then 1 else 0), month % 12 + 1, 1, 0, 0, 0, 0);
    Ok((start, end))
  }

  /** The first instant after the given month. */
  function NextMonthStart(year: int, month: int): DateTime {
    if month == 12 then Midnight(year + 1, 1, 1) else Midnight(year, month + 1, 1)
  }

  /**
   * What a month's summary counts, stated on the calendar: every transaction dated in
   * that month, and also one stamped exactly at the first instant of the next month.
   */
  function CountedInMonth(year: int, month: int): Transaction -> bool {
    (t: Transaction) =>
      (t.timestamp.year == year && t.timestamp.month == month) || t.timestamp == NextMonthStart(year, month)
  }

  /** What a year's summary counts: the year's transactions and the first instant of the next. */
  function CountedInYear(year: int): Transaction -> bool {
    (t: Transaction) => t.timestamp.year == year || t.timestamp == Midnight(year + 1, 1, 1)
  }

  /** The inclusive window filter keeps exactly the month's transactions plus the end instant. */
  lemma MonthWindowMembership(year: int, month: int, t: Transaction)
    requires 1 <= month <= 12 && MonthWindow(year, month).Ok?
    ensures var (start, end) := MonthWindow(year, month).value;
      InRange(start, end)(t) <==> CountedInMonth(year, month)(t)
  {
  }

  /** The same for a year window. */
  lemma YearWindowMembership(year: int, t: Transaction)
    requires 1 <= year <= 9998
    ensures var start: Timestamp := Midnight(year, 1, 1); var end: Timestamp := Midnight(year + 1, 1, 1);
      InRange(start, end)(t) <==> CountedInYear(year)(t)
  {
  }

  /**
   * `monthly_summary`: ValueError for a month outside 1..12, and also when a window
   * bound is not a date; otherwise the totals over what the month counts.
   */
  function MonthlySummary(ledger: Ledger, year: int, month: int): (r: Result<Summary>)
    reads ledger
    ensures !(1 <= month <= 12) ==> r == Err(ValueError(InvalidMonth))
    ensures 1 <= month <= 12 ==> (r.Ok? <==> 1 <= year <= 9999 && (month < 12 || year < 9999))
    ensures r.Err? ==> r.error == ValueError(InvalidMonth) || r.error == ValueError(InvalidDate)
    ensures r.Ok? ==> r.value == SummaryOf(Filter(ledger.transactions, CountedInMonth(year, month)))
  {
    if !(1 <= month <= 12) then Err(ValueError(InvalidMonth))
    else
      var (start, end) :- MonthWindow(year, month);
      assert ledger.FilterByDateRange(start, end) == Filter(ledger.transactions, CountedInMonth(year, month)) by {
        forall t | t in ledger.transactions
          ensures InRange(start, end)(t) == CountedInMonth(year, month)(t)
        {
          MonthWindowMembership(year, month, t);
        }
        FilterCongruent(ledger.transactions, InRange(start, end), CountedInMonth(year, month));
      }
      Ok(SummaryOf(ledger.FilterByDateRange(start, end)))
  }

  /** `yearly_summary`: ValueError when a window bound is not a date; otherwise the year's totals. */
  function YearlySummary(ledger: Ledger, year: int): (r: Result<Summary>)
    reads ledger
    ensures r.Ok? <==> 1 <= year <= 9998
    ensures r.Err? ==> r.error == ValueError(InvalidDate)
    ensures r.Ok? ==> r.value == SummaryOf(Filter(ledger.transactions, CountedInYear(year)))
  {
    var start :- FromComponents(year, 1, 1, 0, 0, 0, 0);
    var end :- FromComponents(year + 1, 1, 1, 0, 0, 0, 0);
    assert ledger.FilterByDateRange(start, end) == Filter(ledger.transactions, CountedInYear(year)) by {
      forall t | t in ledger.transactions
        ensures InRange(start, end)(t) == CountedInYear(year)(t)
      {
        YearWindowMembership(year, t);
      }
      FilterCongruent(ledger.transactions, InRange(start, end), CountedInYear(year));
    }
    Ok(SummaryOf(ledger.FilterByDateRange(start, end)))
  }

  /**
   * The inclusive end bound counts a transaction at midnight on the first of a month
   * in that month and in the month before; December's end is New Year.
   */
  lemma BoundaryCountedTwice(t: Transaction)
    requires t.timestamp == Midnight(2025, 1, 1)
    ensures CountedInMonth(2024, 12)(t) && CountedInMonth(2025, 1)(t)
    ensures CountedInYear(2024)(t) && CountedInYear(2025)(t)
    ensures !CountedInMonth(2024, 11)(t)
  {
  }

  /** Leap February: 2024-02-29 belongs to February 2024. */
  lemma LeapDayCounted(t: Transaction)
    requires t.timestamp == DateTime(2024, 2, 29, 12, 0, 0, 0)
    ensures CountedInMonth(2024, 2)(t) && !CountedInMonth(2024, 3)(t)
  {
  }

  /** A month in which nothing is counted reports zeros. */
  lemma EmptyMonth(ledger: Ledger, year: int, month: int)
    requires 1 <= year <= 9998 && 1 <= month <= 12
    requires forall t :: t in ledger.transactions ==> !CountedInMonth(year, month)(t)
    ensures MonthlySummary(ledger, year, month) == Ok(Summary(0, 0, 0))
  {
    FilterNone(ledger.transactions, CountedInMonth(year, month));
  }

  /** One income and one expense in January 2025: the totals the report shows. */
  lemma JanuaryExample(ledger: Ledger, a: Transaction, b: Transaction)
    requires a.timestamp == DateTime(2025, 1, 10, 0, 0, 0, 0) && a.amount == 10000
    requires b.timestamp == DateTime(2025, 1, 20, 0, 0, 0, 0) && b.amount == -4000
    requires ledger.transactions == [a, b]
    ensures MonthlySummary(ledger, 2025, 1) == Ok(Summary(10000, -4000, 6000))
  {
    var p := CountedInMonth(2025, 1);
    assert p(a) && p(b);
    assert Filter([a, b], p) == [a, b] by {
      assert [a, b][1..] == [b];
      assert Filter([b], p) == [b] + Filter([], p);
    }
    assert [a, b][1..] == [b] && [b][1..] == [];
    assert Income([b]) == 0 && Expenses([b]) == -4000;
    assert Income([a, b]) == 10000 && Expenses([a, b]) == -4000;
  }

  /**
   * `export_to_csv` rows: the header ("field", "value"), then one row per item in
   * order, holding the key and `str(value)`; each value text reads back as the value.
   */
  method CsvRows(data: seq<(string, int)>) returns (rows: seq<(string, string)>)
    ensures |rows| == |data| + 1
    ensures rows[0] == ("field", "value")
    ensures forall i :: 0 <= i < |data| ==> rows[i + 1].0 == data[i].0
    ensures forall i :: 0 <= i < |data| ==> rows[i + 1].1 == MoneyText(data[i].1)
    ensures forall i :: 0 <= i < |data| ==> ParseMoney(rows[i + 1].1) == Some(data[i].1)
  {
    rows := [("field", "value")];
    var i := 0;
    while i < |data|
      invariant 0 <= i <= |data|
      invariant |rows| == i + 1
      invariant rows[0] == ("field", "value")
      invariant forall j :: 0 <= j < i ==> rows[j + 1] == (data[j].0, MoneyText(data[j].1))
    {
      rows := rows + [(data[i].0, MoneyText(data[i].1))];
      i := i + 1;
    }
    forall j | 0 <= j < |data|
      ensures ParseMoney(rows[j + 1].1) == Some(data[j].1)
    {
      MoneyTextRoundTrip(data[j].1);
    }
  }
}
