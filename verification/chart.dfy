/**
 * `generate_chart`: per-category income and expense totals over an inclusive date
 * range, the empty-range and export-format checks, and the exported file's path.
 * Drawing and printing are not modelled; the outcome says what would be drawn.
 */
module Charts {
  import opened Results
  import opened Seqs
  import opened Timestamps
  import opened Transactions
  import opened Ledgers
  import opened Files

  /** Income of one category: the sum of its positive amounts. */
  function CategoryIncome(txs: seq<Transaction>, c: string): int {
    Income(Filter(txs, CategoryIs(c)))
  }

  /** Expense of one category: the sum of the absolute values of its negative amounts. */
  function CategoryExpense(txs: seq<Transaction>, c: string): int {
    -Expenses(Filter(txs, CategoryIs(c)))
  }

  predicate HasIncome(txs: seq<Transaction>, c: string) {
    exists t :: t in txs && t.category == c && IsIncome(t)
  }

  predicate HasExpense(txs: seq<Transaction>, c: string) {
    exists t :: t in txs && t.category == c && IsExpense(t)
  }

  /** Income is positive exactly when some transaction is income; likewise for expenses. */
  lemma {:induction false} SumsPositive(s: seq<Transaction>)
    ensures Income(s) > 0 <==> exists t :: t in s && IsIncome(t)
    ensures Expenses(s) < 0 <==> exists t :: t in s && IsExpense(t)
  {
    if s != [] {
      SumsPositive(s[1..]);
      assert forall t :: t in s <==> t == s[0] || t in s[1..];
    }
  }

  lemma CategoryTotalsPositive(s: seq<Transaction>, c: string)
    ensures CategoryIncome(s, c) > 0 <==> HasIncome(s, c)
    ensures CategoryExpense(s, c) > 0 <==> HasExpense(s, c)
  {
    SumsPositive(Filter(s, CategoryIs(c)));
    FilterMembers(s, CategoryIs(c));
  }

  /** Appending one transaction adds its amount to its own category's total only. */
  lemma CategoryTotalsStep(s: seq<Transaction>, t: Transaction, c: string)
    ensures CategoryIncome(s + [t], c) == CategoryIncome(s, c) + (if t.category == c && IsIncome(t) then t.amount else 0)
    ensures CategoryExpense(s + [t], c) == CategoryExpense(s, c) + (if t.category == c && IsExpense(t) then -t.amount else 0)
  {
    var p := CategoryIs(c);
    FilterConcat(s, [t], p);
    assert [t][1..] == [];
    assert Filter([t], p) == if p(t) then [t] else [];
    SumsConcat(Filter(s, p), Filter([t], p));
  }

  /** `m[k] = m.get(k, 0) + delta`. */
  function Bump(m: map<string, int>, k: string, delta: int): map<string, int> {
    m[k := (if k in m then m[k] else 0) + delta]
  }

  /** `m` holds exactly the categories with income in `s`, each with its total. */
  ghost predicate TracksIncome(m: map<string, int>, s: seq<Transaction>) {
    forall c :: (c in m <==> CategoryIncome(s, c) > 0) && (c in m ==> m[c] == CategoryIncome(s, c))
  }

  /** `m` holds exactly the categories with expenses in `s`, each with its absolute total. */
  ghost predicate TracksExpense(m: map<string, int>, s: seq<Transaction>) {
    forall c :: (c in m <==> CategoryExpense(s, c) > 0) && (c in m ==> m[c] == CategoryExpense(s, c))
  }

  lemma IncomeStep(m: map<string, int>, s: seq<Transaction>, t: Transaction)
    requires TracksIncome(m, s)
    ensures TracksIncome(if IsIncome(t) then Bump(m, t.category, t.amount) else m, s + [t])
  {
    forall c {
      CategoryTotalsStep(s, t, c);
    }
  }

  lemma ExpenseStep(m: map<string, int>, s: seq<Transaction>, t: Transaction)
    requires TracksExpense(m, s)
    ensures TracksExpense(if IsExpense(t) then Bump(m, t.category, -t.amount) else m, s + [t])
  {
    forall c {
      CategoryTotalsStep(s, t, c);
    }
  }

  /** The aggregation loop of `generate_chart`. */
  method Aggregate(txs: seq<Transaction>) returns (incomes: map<string, int>, expenses: map<string, int>, categories: set<string>)
    ensures forall c :: c in categories <==> exists t :: t in txs && t.category == c
    ensures categories == {} <==> txs == []
    ensures forall c :: c in incomes <==> HasIncome(txs, c)
    ensures forall c :: c in expenses <==> HasExpense(txs, c)
    ensures forall c :: c in incomes ==> incomes[c] == CategoryIncome(txs, c) && incomes[c] > 0
    ensures forall c :: c in expenses ==> expenses[c] == CategoryExpense(txs, c) && expenses[c] > 0
  {
    incomes := map[];
    expenses := map[];
    categories := {};
    var i := 0;
    while i < |txs|
      invariant 0 <= i <= |txs|
      invariant forall c :: c in categories <==> exists j :: 0 <= j < i && txs[j].category == c
      invariant i > 0 ==> txs[0].category in categories
      invariant TracksIncome(incomes, txs[..i])
      invariant TracksExpense(expenses, txs[..i])
    {
      var tx := txs[i];
      assert txs[..i + 1] == txs[..i] + [tx];
      IncomeStep(incomes, txs[..i], tx);
      ExpenseStep(expenses, txs[..i], tx);
      categories := categories + {tx.category};
      if IsIncome(tx) {
        incomes := Bump(incomes, tx.category, tx.amount);
      } else if IsExpense(tx) {
        expenses := Bump(expenses, tx.category, -tx.amount);
      }
      i := i + 1;
    }
    assert txs[..i] == txs;
    forall c
      ensures CategoryIncome(txs, c) > 0 <==> HasIncome(txs, c)
      ensures CategoryExpense(txs, c) > 0 <==> HasExpense(txs, c)
    {
      CategoryTotalsPositive(txs, c);
    }
    assert forall t :: t in txs <==> exists j :: 0 <= j < |txs| && txs[j] == t;
  }

  /** `to_isoformat().split("T")[0]`: the text before the first 'T'. */
  function DatePart(t: Timestamp): (r: string)
    ensures r == DateText(t)
  {
    var s := ToIsoFormat(t);
    assert s[..10] == DateText(t) && s[10] == 'T';
    assert forall j :: 0 <= j < 10 ==> s[j] == DateText(t)[j];
    s[..FirstIndex(s, 'T')]
  }

  /** The exported file's name. */
  function ExportFileName(start: Timestamp, end: Timestamp, format: string): (r: string)
    ensures r == "chart_" + DateText(start) + "_to_" + DateText(end) + "." + format
  {
    "chart_" + DatePart(start) + "_to_" + DatePart(end) + "." + format
  }

  /** A name built from a separator-free format is a single path component. */
  lemma ExportFileNameIsName(start: Timestamp, end: Timestamp, format: string)
    requires '/' !in format
    ensures IsName(ExportFileName(start, end, format))
  {
    var a, b := DateText(start), DateText(end);
    assert '/' !in a && '/' !in b;
    assert '/' !in "chart_" && '/' !in "_to_" && '/' !in ".";
    var p1 := "chart_" + a;
    var p2 := p1 + "_to_" + b;
    var r := p2 + "." + format;
    assert '/' !in p1 && '/' !in p2 && '/' !in r;
    assert |r| > 1;
    assert ExportFileName(start, end, format) == r;
  }

  lemma ChartsDirectory(root: Path)
    ensures CreateDirectory(root, "processed/charts") == Path(root.absolute, root.parts + ["processed", "charts"])
  {
    CreateNested(root, "processed", "charts");
    assert "processed" + "/" + "charts" == "processed/charts";
  }

  /** The saved chart: `create_directory("processed/charts") / name`. */
  function ChartPath(root: Path, name: string): Path {
    Path(root.absolute, root.parts + ["processed", "charts", name])
  }

  /** Joining a name onto the charts directory gives the chart's path. */
  lemma ChartPathJoin(root: Path, dir: Path, name: string)
    requires IsName(name)
    requires dir == Path(root.absolute, root.parts + ["processed", "charts"])
    ensures ChartPath(root, name) == JoinPath(dir, name)
  {
    JoinName(dir, name);
    assert dir.parts + [name] == root.parts + ["processed", "charts", name];
  }

  /** The chart is `create_directory("processed/charts") / name`, for a name without separators. */
  lemma ChartPathInChartsDirectory(root: Path, name: string)
    requires IsName(name)
    ensures ChartPath(root, name) == JoinPath(CreateDirectory(root, "processed/charts"), name)
  {
    ChartsDirectory(root);
    ChartPathJoin(root, CreateDirectory(root, "processed/charts"), name);
  }

  /** What `generate_chart` would draw, and the file it would save. */
  datatype Chart = Chart(incomes: map<string, int>, expenses: map<string, int>,
                         categories: set<string>, saved: Option<Path>)

  datatype ChartOutcome = NoData | Drawn(chart: Chart) | Failed(error: Error)

  /** `export_format` is truthy: given and not empty. */
  predicate Truthy(format: Option<string>) { format.Some? && format.value != "" }

  /**
   * `generate_chart`: nothing in range returns before any format check; a truthy
   * format other than "png" or "svg" is a ValueError; otherwise the totals are drawn
   * and, for a truthy format, saved under `processed/charts` of the data root.
   */
  method GenerateChart(ledger: Ledger, start: Timestamp, end: Timestamp, format: Option<string>, root: Path)
    returns (r: ChartOutcome)
    ensures var txs := ledger.FilterByDateRange(start, end);
      && (r.NoData? <==> txs == [])
      && (r.Failed? <==> txs != [] && Truthy(format) && format.value != "png" && format.value != "svg")
      && (r.Failed? ==> r == Failed(ValueError(InvalidChartFormat)))
      && (r.Drawn? ==>
            && (forall c :: c in r.chart.categories <==> exists t :: t in txs && t.category == c)
            && (forall c :: c in r.chart.incomes <==> HasIncome(txs, c))
            && (forall c :: c in r.chart.expenses <==> HasExpense(txs, c))
            && (forall c :: c in r.chart.incomes ==> r.chart.incomes[c] == CategoryIncome(txs, c))
            && (forall c :: c in r.chart.expenses ==> r.chart.expenses[c] == CategoryExpense(txs, c) > 0)
            && (r.chart.saved.Some? <==> Truthy(format))
            && (r.chart.saved.Some? ==> r.chart.saved.value == ChartPath(root, ExportFileName(start, end, format.value))))
  {
    var txs := ledger.FilterByDateRange(start, end);
    var incomes, expenses, categories := Aggregate(txs);
    if categories == {} {
      return NoData;
    }
    assert txs != [];
    var saved: Option<Path> := None;
    if Truthy(format) {
      if format.value != "png" && format.value != "svg" {
        return Failed(ValueError(InvalidChartFormat));
      }
      saved := Some(ChartPath(root, ExportFileName(start, end, format.value)));
    }
    r := Drawn(Chart(incomes, expenses, categories, saved));
  }

  /** A zero-amount transaction names its category but enters neither total. */
  lemma ZeroAmountCategory(t: Transaction)
    requires t.amount == 0
    ensures !HasIncome([t], t.category) && !HasExpense([t], t.category)
  {
  }
}
