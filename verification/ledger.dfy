/**
 * The Ledger: an ordered list of transactions that is appended to, removed from,
 * filtered, summed and used as a Python sequence.
 */
module Ledgers {
  import opened Results
  import opened Seqs
  import Timestamps
  import opened Transactions

  /** Sum of all amounts. */
  function Balance(s: seq<Transaction>): (r: int)
    ensures r == Income(s) + Expenses(s)
  {
    if s == [] then 0 else s[0].amount + Balance(s[1..])
  }

  /** Sum of the positive amounts. */
  function Income(s: seq<Transaction>): (r: int)
    ensures r >= 0
  {
    if s == [] then 0 else (if IsIncome(s[0]) then s[0].amount else 0) + Income(s[1..])
  }

  /** Sum of the negative amounts. */
  function Expenses(s: seq<Transaction>): (r: int)
    ensures r <= 0
  {
    if s == [] then 0 else (if IsExpense(s[0]) then s[0].amount else 0) + Expenses(s[1..])
  }

  /** The three sums distribute over concatenation. */
  lemma {:induction false} SumsConcat(a: seq<Transaction>, b: seq<Transaction>)
    ensures Balance(a + b) == Balance(a) + Balance(b)
    ensures Income(a + b) == Income(a) + Income(b)
    ensures Expenses(a + b) == Expenses(a) + Expenses(b)
  {
    if a == [] {
      assert a + b == b;
    } else {
      assert (a + b)[1..] == a[1..] + b;
      SumsConcat(a[1..], b);
    }
  }

  /** Splicing `x` out of the middle of a list takes its amount out of the sums. */
  lemma SumsSplice(pre: seq<Transaction>, x: Transaction, post: seq<Transaction>)
    ensures Balance(pre + post) == Balance(pre + [x] + post) - x.amount
    ensures Income(pre + post) == Income(pre + [x] + post) - (if IsIncome(x) then x.amount else 0)
    ensures Expenses(pre + post) == Expenses(pre + [x] + post) - (if IsExpense(x) then x.amount else 0)
  {
    SumsConcat(pre + [x], post);
    SumsConcat(pre, [x]);
    SumsConcat(pre, post);
    assert [x][1..] == [];
  }

  /** Removing one occurrence of `x` takes exactly its amount out of the sums. */
  lemma SumsRemove(s: seq<Transaction>, x: Transaction)
    requires x in s
    ensures Balance(RemoveFirst(s, x)) == Balance(s) - x.amount
    ensures Income(RemoveFirst(s, x)) == Income(s) - (if IsIncome(x) then x.amount else 0)
    ensures Expenses(RemoveFirst(s, x)) == Expenses(s) - (if IsExpense(x) then x.amount else 0)
  {
    var i := FirstIndex(s, x);
    AroundFirst(s, x);
    SumsSplice(s[..i], x, s[i + 1..]);
  }

  /** `total_income` sums the amounts of the income transactions: an independent reading. */
  lemma {:induction false} IncomeIsFilteredSum(s: seq<Transaction>)
    ensures Income(s) == Balance(Filter(s, IsIncome))
    ensures Expenses(s) == Balance(Filter(s, IsExpense))
  {
    if s != [] {
      IncomeIsFilteredSum(s[1..]);
      var x := s[0];
      var head := if IsIncome(x) then [x] else [];
      var tail := if IsExpense(x) then [x] else [];
      assert Filter(s, IsIncome) == head + Filter(s[1..], IsIncome);
      assert Filter(s, IsExpense) == tail + Filter(s[1..], IsExpense);
      assert [x][1..] == [];
      assert Balance(head) == (if IsIncome(x) then x.amount else 0);
      assert Balance(tail) == (if IsExpense(x) then x.amount else 0);
      SumsConcat(head, Filter(s[1..], IsIncome));
      SumsConcat(tail, Filter(s[1..], IsExpense));
    }
  }

  function CategoryIs(category: string): Transaction -> bool {
    (t: Transaction) => t.category == category
  }

  /** `start <= t.timestamp <= end`, with the Timestamp order. */
  function InRange(start: Timestamps.Timestamp, end: Timestamps.Timestamp): Transaction -> bool {
    (t: Transaction) => Timestamps.Le(start, t.timestamp) && Timestamps.Le(t.timestamp, end)
  }

  /**
   * Python slice bounds for step 1: a missing start or stop means the ends, a negative
   * one counts from the end, and both are clamped into the list.
   */
  function SliceIndex(len: nat, i: Option<int>, default: nat): (r: nat)
    requires default <= len
    ensures r <= len
    ensures i.Some? && 0 <= i.value <= len ==> r == i.value
    ensures i.Some? && -(len as int) <= i.value < 0 ==> r == len + i.value
    ensures i.None? ==> r == default
  {
    match i
    case None => default
    case Some(k) =>
      if k < 0 then (if k + len < 0 then 0 else k + len)
      else if k > len then len
      else k
  }

  /** The half-open range `[lo, hi)` a `start:stop` slice selects; an inverted range is empty. */
  function SliceRange(len: nat, start: Option<int>, stop: Option<int>): (r: (nat, nat))
    ensures r.0 <= r.1 <= len
    ensures r.0 == SliceIndex(len, start, 0)
    ensures SliceIndex(len, stop, len) < r.0 ==> r.1 == r.0
  {
    var lo := SliceIndex(len, start, 0);
    var hi := SliceIndex(len, stop, len);
    (lo, if hi < lo then lo else hi)
  }

  lemma SliceExamples()
    ensures SliceRange(5, Some(1), Some(4)) == (1, 4)
    ensures SliceRange(5, Some(-2), None) == (3, 5)
    ensures SliceRange(5, None, None) == (0, 5)
    ensures SliceRange(5, Some(4), Some(1)) == (4, 4)
    ensures SliceRange(5, Some(-9), Some(99)) == (0, 5)
  {
  }

  /** The balance of a middle part plus that of the outer parts is the balance of all three. */
  lemma BalanceOfMiddle(pre: seq<Transaction>, mid: seq<Transaction>, post: seq<Transaction>)
    ensures Balance(mid) + Balance(pre + post) == Balance(pre + mid + post)
  {
    SumsConcat(pre + mid, post);
    SumsConcat(pre, mid);
    SumsConcat(pre, post);
  }

  /** Taking the part `lo..hi` out of a list takes its balance out of the balance. */
  lemma BalanceWithout(s: seq<Transaction>, lo: nat, hi: nat)
    requires lo <= hi <= |s|
    ensures Balance(s[lo..hi]) + Balance(s[..lo] + s[hi..]) == Balance(s)
  {
    SliceParts(s, lo, hi);
    BalanceOfMiddle(s[..lo], s[lo..hi], s[hi..]);
  }

  /** What a slice selects and what deleting the same slice leaves split the balance. */
  lemma SliceSplitsBalance(s: seq<Transaction>, start: Option<int>, stop: Option<int>)
    ensures var r := SliceRange(|s|, start, stop);
      Balance(s[r.0..r.1]) + Balance(s[..r.0] + s[r.1..]) == Balance(s)
  {
    var r := SliceRange(|s|, start, stop);
    BalanceWithout(s, r.0, r.1);
  }

  class Ledger {
    var transactions: seq<Transaction>

    /** `Ledger(transactions)`: a copy of the given list, or an empty ledger. */
    constructor (initial: seq<Transaction>)
      ensures transactions == initial
    {
      transactions := initial;
    }

    /** `add_transaction`: appends. */
    method AddTransaction(t: Transaction)
      modifies this
      ensures transactions == old(transactions) + [t]
      ensures GetBalance() == old(GetBalance()) + t.amount
    {
      SumsConcat(transactions, [t]);
      transactions := transactions + [t];
    }

    /**
     * `remove_transaction`: removes the first equal transaction, or raises ValueError
     * and leaves the ledger as it was.
     */
    method RemoveTransaction(t: Transaction) returns (outcome: Outcome)
      modifies this
      ensures outcome.Pass? <==> t in old(transactions)
      ensures outcome.Pass? ==> transactions == RemoveFirst(old(transactions), t)
      ensures outcome.Pass? ==> multiset(transactions) == multiset(old(transactions)) - multiset{t}
      ensures outcome.Pass? ==> GetBalance() == old(GetBalance()) - t.amount
      ensures outcome.Fail? ==> outcome == Fail(ValueError(NotFound)) && transactions == old(transactions)
    {
      if t in transactions {
        RemoveFirstMultiset(transactions, t);
        SumsRemove(transactions, t);
        transactions := RemoveFirst(transactions, t);
        outcome := Pass;
      } else {
        outcome := Fail(ValueError(NotFound));
      }
    }

    /** `get_balance`: income and expenses together make the balance. */
    function GetBalance(): (r: int)
      reads this
      ensures r == TotalIncome() + TotalExpenses()
    {
      Balance(transactions)
    }

    /** `total_income`: the sum of the amounts of the income transactions, never negative. */
    function TotalIncome(): (r: int)
      reads this
      ensures r >= 0
      ensures r == Balance(Filter(transactions, IsIncome))
    {
      IncomeIsFilteredSum(transactions);
      Income(transactions)
    }

    /** `total_expenses`: the sum of the amounts of the expense transactions, never positive. */
    function TotalExpenses(): (r: int)
      reads this
      ensures r <= 0
      ensures r == Balance(Filter(transactions, IsExpense))
    {
      IncomeIsFilteredSum(transactions);
      Expenses(transactions)
    }

    /** `filter_by_category`: the transactions of that category, in ledger order. */
    function FilterByCategory(category: string): (r: seq<Transaction>)
      reads this
      ensures forall t :: t in r <==> t in transactions && t.category == category
      ensures forall t :: multiset(r)[t] == if t.category == category then multiset(transactions)[t] else 0
      ensures IsSubsequence(r, transactions)
    {
      FilterIsSubsequence(transactions, CategoryIs(category));
      FilterMultiset(transactions, CategoryIs(category));
      FilterMembers(transactions, CategoryIs(category));
      Filter(transactions, CategoryIs(category))
    }

    /**
     * `filter_by_date_range`: the transactions with `start <= timestamp <= end`
     * (both ends inclusive), in ledger order; none when `end` precedes `start`.
     */
    function FilterByDateRange(start: Timestamps.Timestamp, end: Timestamps.Timestamp): (r: seq<Transaction>)
      reads this
      ensures forall t :: t in r <==>
        t in transactions && Timestamps.Le(start, t.timestamp) && Timestamps.Le(t.timestamp, end)
      ensures forall t :: multiset(r)[t] ==
                          if InRange(start, end)(t) then multiset(transactions)[t] else 0
      ensures IsSubsequence(r, transactions)
      ensures Timestamps.Lt(end, start) ==> r == []
    {
      FilterIsSubsequence(transactions, InRange(start, end));
      FilterMultiset(transactions, InRange(start, end));
      FilterMembers(transactions, InRange(start, end));
      assert Timestamps.Lt(end, start) ==> Filter(transactions, InRange(start, end)) == [] by {
        if Timestamps.Lt(end, start) {
          forall t | t in transactions
            ensures !InRange(start, end)(t)
          {
            Timestamps.TotalOrder(start, t.timestamp, end);
            Timestamps.TotalOrder(end, start, t.timestamp);
          }
          FilterNone(transactions, InRange(start, end));
        }
      }
      Filter(transactions, InRange(start, end))
    }

    /** `__len__`. */
    function Len(): (r: nat)
      reads this
      ensures r == |transactions|
    {
      |transactions|
    }

    /** `__getitem__` with an int: Python indexing, negative from the end, else IndexError. */
    function GetItem(i: int): (r: Result<Transaction>)
      reads this
      ensures r.Ok? <==> -|transactions| <= i < |transactions|
      ensures r.Err? ==> r.error == IndexError
      ensures r.Ok? && i >= 0 ==> r.value == transactions[i]
      ensures r.Ok? && i < 0 ==> r.value == transactions[|transactions| + i]
    {
      if 0 <= i < |transactions| then Ok(transactions[i])
      else if -|transactions| <= i < 0 then Ok(transactions[|transactions| + i])
      else Err(IndexError)
    }

    /** `__getitem__` with a slice: a new ledger holding the selected transactions. */
    method GetSlice(start: Option<int>, stop: Option<int>) returns (sub: Ledger)
      ensures fresh(sub)
      ensures var (lo, hi) := SliceRange(|transactions|, start, stop);
        sub.transactions == transactions[lo..hi]
    {
      var (lo, hi) := SliceRange(|transactions|, start, stop);
      sub := new Ledger(transactions[lo..hi]);
    }

    /** `__delitem__` with an int: removes that position, or raises IndexError and changes nothing. */
    method DelItem(i: int) returns (outcome: Outcome)
      modifies this
      ensures outcome.Pass? <==> -|old(transactions)| <= i < |old(transactions)|
      ensures outcome.Fail? ==> outcome == Fail(IndexError) && transactions == old(transactions)
      ensures outcome.Pass? ==>
        var k := if i < 0 then |old(transactions)| + i else i;
        transactions == old(transactions[..k] + transactions[k + 1..])
    {
      if -|transactions| <= i < |transactions| {
        var k := if i < 0 then |transactions| + i else i;
        transactions := transactions[..k] + transactions[k + 1..];
        outcome := Pass;
      } else {
        outcome := Fail(IndexError);
      }
    }

    /** `__delitem__` with a slice: removes the selected transactions. */
    method DelSlice(start: Option<int>, stop: Option<int>)
      modifies this
      ensures var (lo, hi) := SliceRange(|old(transactions)|, start, stop);
        transactions == old(transactions[..lo] + transactions[hi..])
    {
      var (lo, hi) := SliceRange(|transactions|, start, stop);
      transactions := transactions[..lo] + transactions[hi..];
    }

    /** `__contains__`: membership by transaction equality. */
    function Contains(t: Transaction): (r: bool)
      reads this
      ensures r <==> exists i :: 0 <= i < |transactions| && transactions[i] == t
    {
      t in transactions
    }

    /** `__bool__`: a ledger is truthy when it holds a transaction. */
    function Truthy(): (r: bool)
      reads this
      ensures r <==> Len() > 0
    {
      transactions != []
    }

    /** `__eq__`: the same transactions in the same order. */
    function Equals(other: Ledger): (r: bool)
      reads this, other
      ensures r <==> |transactions| == |other.transactions|
                     && forall i :: 0 <= i < |transactions| ==> transactions[i] == other.transactions[i]
    {
      transactions == other.transactions
    }

    /** `__add__`: a new ledger with this ledger's transactions followed by the other's. */
    method Plus(other: Ledger) returns (sum: Ledger)
      ensures fresh(sum)
      ensures sum.transactions == transactions + other.transactions
      ensures sum.GetBalance() == GetBalance() + other.GetBalance()
    {
      SumsConcat(transactions, other.transactions);
      sum := new Ledger(transactions + other.transactions);
    }

    /** `__iadd__`: extends this ledger in place (also when `other` is this ledger) and returns it. */
    method IAdd(other: Ledger) returns (self: Ledger)
      modifies this
      ensures self == this
      ensures transactions == old(transactions) + old(other.transactions)
      ensures GetBalance() == old(GetBalance()) + old(other.GetBalance())
    {
      SumsConcat(transactions, other.transactions);
      transactions := transactions + other.transactions;
      self := this;
    }

    /** `__copy__`: a new ledger equal to this one; later changes to either do not reach the other. */
    method Copy() returns (c: Ledger)
      ensures fresh(c)
      ensures c.transactions == transactions
      ensures c.Equals(this)
    {
      c := new Ledger(transactions);
    }
  }
}
