# budgetmanager core, modelled in Dafny

This project models the core of *budgetmanager*, a personal-finance tool.
It proves properties of the model. The modelled parts are:

- **Transactions.** A timestamped amount with a category and a description.
  Positive amounts are income, negative amounts are expenses.
  - There are two variants: the id-less one and the core one with an optional `transaction_id`.
  - Both have truthiness, equality and amount ordering.
  - Both have arithmetic operators, which the two variants share.
  - Both serialize to and from dicts.
- **Timestamp.** A date and time of day with calendar validity.
  - Its chronological order.
  - Its ISO 8601 text form (`isoformat` / `fromisoformat`).
- **Ledger.** A mutable list of transactions.
  - It has balance, income and expense totals, and category and date-range filters.
  - It supports Python's container protocol: `len`, indexing with negative indices, slices, `del`, `in`, `bool`, `==`, `+`, `+=` and copying.
- **Report.** Monthly and yearly summaries over an inclusive window, plus the rows of the CSV export.
- **Chart.** Per-category income and expense totals, the format check, and the name and place of the exported image.
- **FileHandler.** Path resolution under the data root, and the file-name and file-type checks of `create_file`.
- **Budget.** A category limit with its dict form.

## How the model is built

- **Amounts.** The source uses Python `Decimal`. The model uses exact integer hundredths.
  - `str(amount)` is the canonical `[-]D.DD` text (`DecimalText.MoneyText`).
  - `Decimal(text)` accepts a sign, digits and at most two fraction digits (`DecimalText.ParseMoney`).
  - Every other text is an invalid amount.
- **Dicts.** Dict records are `map<string, Value>`. A `Value` is a text, an int, a decimal or `None`; float values are left out (see "Left out").
- **Timestamp.** The type is a subset type over a seven-field record. The validity rules are those of Python's `date` and `time`.
- **Ledger.** The `Ledger` is a class whose `transactions` field is a `seq` that the methods reassign.
  - Each method states the new sequence in terms of the old one.
  - Each method also states how the balance moves.
- **Charts.** Aggregation is a loop over the filtered transactions. It is proved against the per-category sums, `Charts.CategoryIncome` and `Charts.CategoryExpense`.
- **Data root.** The data root (`config.DATA_ROOT`) is a parameter `root` of the path functions.
- **Errors.** Python exceptions become `Result` values whose `Error` names the exception class and its cause.

Where the specification and the code differ, the model follows the code:

- The monthly window is `start <= t <= first instant of the next month`. Both ends are inclusive, so a transaction stamped exactly at midnight on the first of the next month is counted in both months. The same holds for years (`Reports.BoundaryCountedTwice`).
- The id-less `transaction.py` derives `<=`, `>` and `>=` with `functools.total_ordering` from `__lt__` (amount) and `__eq__` (all fields). Two transactions with equal amounts and different fields are therefore each `>` the other, and neither is `<=` the other (`Transactions.TiesAreGreater`). The core variant compares amounts directly (`CoreTransactions.OrdersAgreeExceptTies`).

## Model

| member | source | states |
|---|---|---|
| Timestamps.DaysInMonth | src/budgetmanager/utils/timestamp.py:115 | a month has 28 to 31 days; February has 29 exactly in leap years |
| Timestamps.FromComponents | src/budgetmanager/utils/timestamp.py:115-117 | succeeds exactly when month, day, hour, minute, second and microsecond lie in Python's ranges for that year; the timestamp holds the given components; otherwise ValueError |
| Timestamps.LeapDay | src/budgetmanager/utils/timestamp.py:115-117 | February 29 is accepted exactly in leap years |
| Timestamps.FromComponentsExamples | src/budgetmanager/utils/timestamp.py:115-117 | month 13, February 30 and hour 24 are rejected; 2024-02-29 and 2000-02-29 are accepted and 1900-02-29 is rejected |
| Timestamps.TotalOrder | src/budgetmanager/utils/timestamp.py:16 | the comparisons derived by total_ordering form a total order: reflexive, antisymmetric, transitive and total; `>` is the converse of `<` |
| Timestamps.TimeOfDay | src/budgetmanager/utils/timestamp.py:232-244 | the time of day in microseconds is less than one day |
| Timestamps.YearsAscend | src/budgetmanager/utils/timestamp.py:232-244 | every year starts after all earlier years have ended |
| Timestamps.MonthStep | src/budgetmanager/utils/timestamp.py:232-244 | a month starts where the previous month ends |
| Timestamps.MonthsAscend | src/budgetmanager/utils/timestamp.py:232-244 | within a year, later months start after earlier months end |
| Timestamps.DayWithinYear | src/budgetmanager/utils/timestamp.py:232-244 | a valid day lies before the end of its year |
| Timestamps.EarlierDay | src/budgetmanager/utils/timestamp.py:232-244 | an earlier day is an earlier instant, whatever the times of day |
| Timestamps.LtIsEarlier | src/budgetmanager/utils/timestamp.py:232-244 | lexicographic `<` on the components implies an earlier instant on the time line |
| Timestamps.LtIsChronological | src/budgetmanager/utils/timestamp.py:232-244 | `a < b` holds exactly when `a` is an earlier instant (microseconds since 0001-01-01) than `b` |
| Timestamps.DateText | src/budgetmanager/utils/timestamp.py:177-184 | the date part is YYYY-MM-DD with zero-padded fields, made of digits and dashes only |
| Timestamps.TimeText | src/budgetmanager/utils/timestamp.py:177-184 | the time part is HH:MM:SS with zero-padded fields |
| Timestamps.ToIsoFormat | src/budgetmanager/utils/timestamp.py:177-184 | the text is 19 characters long, or 26 when the microsecond is not zero; date, then 'T', then time, then '.ffffff' only for a non-zero microsecond |
| Timestamps.FromIsoFormat | src/budgetmanager/utils/timestamp.py:160-166 | succeeds exactly on ISO-shaped text that names a valid date and time, with those components; otherwise ValueError |
| Timestamps.IsoRoundTrip | src/budgetmanager/utils/timestamp.py:149-184 | `from_isoformat(to_isoformat(t)) == t` for every timestamp |
| Timestamps.IsoExamplesRejected | src/budgetmanager/utils/timestamp.py:160-165 | "invalid-format" and the non-date "2021-02-29" raise ValueError |
| DecimalText.TwoDigits | src/budgetmanager/utils/timestamp.py:162 | a two-digit field reads as ten times its first digit plus its second |
| DecimalText.DigitChar | src/budgetmanager/transaction.py:285 | a digit value prints as the digit character that reads back as that value |
| DecimalText.Padded | src/budgetmanager/utils/timestamp.py:184 | a zero-padded field has exactly the requested width and only digits |
| DecimalText.PaddedValue | src/budgetmanager/utils/timestamp.py:184 | a zero-padded field reads back as its number when the number fits the width |
| DecimalText.NatText | src/budgetmanager/core/budget.py:53 | `str(n)` is non-empty, has only digits and has no leading zero |
| DecimalText.IntText | src/budgetmanager/core/budget.py:53 | `str(i)` starts with '-' exactly for negative numbers |
| DecimalText.ParseInt | src/budgetmanager/core/transaction.py:349-355 | `int(text)` succeeds exactly on digits, or on a sign followed by at least one digit, and then has the value the digits denote, negated after '-' |
| DecimalText.IntTextRoundTrip | src/budgetmanager/core/transaction.py:349-355 | `int(str(i)) == i` |
| DecimalText.TruncateCents | src/budgetmanager/core/transaction.py:351 | `int(Decimal)` truncates toward zero: the result is no larger in magnitude than the amount, has the amount's sign and is within one unit of it |
| DecimalText.MoneyText | src/budgetmanager/transaction.py:285 | `str(amount)` starts with '-' exactly for negative amounts and has two fraction digits after a point |
| DecimalText.ParseMoney | src/budgetmanager/transaction.py:314-322 | `Decimal(text)` fails on empty text; what it reads is non-positive after a leading '-' and non-negative otherwise |
| DecimalText.NotANumber | src/budgetmanager/transaction.py:314-322 | text that starts with neither a sign, a digit nor a point is not read as an amount |
| DecimalText.SplitAtPoint | src/budgetmanager/transaction.py:314-322 | digits, a point and two digits read as whole units times 100 plus the fraction |
| DecimalText.CentsText | src/budgetmanager/transaction.py:285 | two zero-padded fraction digits read back as the cents below 100 |
| DecimalText.UnitsAndCents | src/budgetmanager/transaction.py:285-322 | whole units, a point and two padded cent digits read back as 100 times the units plus the cents |
| DecimalText.MagnitudeRoundTrip | src/budgetmanager/transaction.py:285-322 | the unsigned text of an amount reads back as that amount |
| DecimalText.SignedText | src/budgetmanager/transaction.py:314-322 | a leading '-' negates what the digits read as |
| DecimalText.MoneyTextRoundTrip | src/budgetmanager/transaction.py:285-322 | `Decimal(str(amount)) == amount` |
| DecimalText.IntTextAsMoney | src/budgetmanager/core/budget.py:53 | `Decimal(str(i))` for an int `i` is `i` whole units |
| Records.TimestampField | src/budgetmanager/transaction.py:308-312 | succeeds exactly when "timestamp" is present, is text and parses as ISO; every failure is the ValueError "Invalid timestamp" |
| Records.AmountField | src/budgetmanager/transaction.py:314-322 | KeyError exactly when "amount" is absent; a Decimal is kept; an int is whole units; None is a ValueError |
| Records.TextField | src/budgetmanager/transaction.py:324-329 | KeyError exactly when the key is absent; succeeds exactly on text, returning it |
| Records.IdField | src/budgetmanager/core/transaction.py:347-357 | an absent id gives None; an int id is kept; None is a ValueError; every failure is the ValueError "Invalid transaction_id" |
| Records.WrittenFieldsRead | src/budgetmanager/transaction.py:282-329 | a dict holding the texts `to_dict` writes for timestamp, amount, category and description reads each of them back |
| Records.FieldRoundTrips | src/budgetmanager/core/transaction.py:316-383 | each field reader reads back what `to_dict` writes for that field |
| Arithmetic.Units | src/budgetmanager/transaction.py:97-113 | hundredths as a real number keep their sign and zero |
| Arithmetic.Add | src/budgetmanager/core/transaction.py:130-156 | `t + x` minus `x` is `t.amount`, for a transaction or a scalar `x` |
| Arithmetic.Sub | src/budgetmanager/core/transaction.py:160-187 | `t - x` plus `x` is `t.amount` |
| Arithmetic.RSub | src/budgetmanager/core/transaction.py:189-210 | `x - t` is the negation of `t - x` |
| Arithmetic.Mul | src/budgetmanager/core/transaction.py:212-239 | the product is zero exactly when a factor is zero |
| Arithmetic.Div | src/budgetmanager/core/transaction.py:243-273 | ZeroDivisionError exactly when the divisor is zero; otherwise the quotient times the divisor is the amount |
| Arithmetic.RDiv | src/budgetmanager/core/transaction.py:277-300 | `x / t` is a ZeroDivisionError exactly when `t.amount` is zero; otherwise the quotient times the amount is `x` |
| Arithmetic.TransactionOperators | src/budgetmanager/transaction.py:97-196 | between transactions `+` and `*` commute, `-` is antisymmetric, and `t - t` is zero |
| Transactions.Classification | src/budgetmanager/transaction.py:67-69 | a transaction is truthy exactly when it is income or an expense, and it is never both |
| Transactions.OrderOnAmounts | src/budgetmanager/transaction.py:80-95 | `==` is field-wise equality; for different amounts every derived comparison follows the amounts; `>=` is always `amount >=` |
| Transactions.TiesAreGreater | src/budgetmanager/transaction.py:17 | for equal amounts and different fields, total_ordering makes each transaction `>` and `>=` the other and neither `<=` the other |
| Transactions.ToDict | src/budgetmanager/transaction.py:282-287 | the dict has exactly the keys timestamp, category, amount and description, all text |
| Transactions.FromDict | src/budgetmanager/transaction.py:308-329 | any timestamp failure (missing, not text, malformed) is the ValueError "Invalid timestamp"; then the amount reader's error (KeyError when missing, ValueError "Invalid amount" when bad); then a KeyError for a missing category, then for a missing description; it succeeds exactly when every field reader does, with every field taken from its reader |
| Transactions.AmountTextRejected | src/budgetmanager/transaction.py:314-322 | after a good timestamp, amount text that does not start with a sign, a digit or a point (such as "abc") makes from_dict raise the ValueError "Invalid amount" |
| Transactions.DictRoundTrip | src/budgetmanager/transaction.py:271-329 | `from_dict(to_dict(t)) == t` |
| CoreTransactions.AmountPreorder | src/budgetmanager/core/transaction.py:94-128 | `==` is field-wise equality; `<=` is a total preorder on amounts; `<` is the negation of `>=`; `>` and `>=` are the converses of `<` and `<=` |
| CoreTransactions.Classification | src/budgetmanager/core/transaction.py:385-391 | a core transaction is truthy exactly when it is income or an expense, never both, and is classified as the id-less transaction with the same fields is |
| CoreTransactions.WithoutId | src/budgetmanager/core/transaction.py:29-51 | dropping the id keeps timestamp, category, amount and description |
| CoreTransactions.OrdersAgreeExceptTies | src/budgetmanager/core/transaction.py:106-128 | the core and id-less orders agree on `<` and `>=`, and differ on `<=` and `>` exactly for equal amounts with different fields |
| CoreTransactions.ToDict | src/budgetmanager/core/transaction.py:316-324 | the id-less dict, plus "transaction_id" as an int exactly when there is an id |
| CoreTransactions.ToDictEntries | src/budgetmanager/core/transaction.py:316-357 | `to_dict` writes the timestamp, amount, category and description texts, and the id reader reads its id back |
| CoreTransactions.FromDict | src/budgetmanager/core/transaction.py:347-383 | a bad id is the ValueError "Invalid transaction_id"; after a good id, the same sequence of errors as the id-less from_dict (timestamp, amount, category, description); it succeeds exactly when the id and the id-less from_dict both do, and then the id is the dict's and the other fields are what the id-less from_dict reads |
| CoreTransactions.FieldsBuild | src/budgetmanager/core/transaction.py:347-383 | when every field reader succeeds, `from_dict` builds the transaction out of their values |
| CoreTransactions.DictRoundTrip | src/budgetmanager/core/transaction.py:304-383 | `from_dict(to_dict(t)) == t`, with or without an id |
| Budgets.ToDict | src/budgetmanager/core/budget.py:30 | the dict has exactly the keys category and limit, with the category as text and the limit as text |
| Budgets.StrOf | src/budgetmanager/core/budget.py:53 | `str(raw)` of a text is the text itself |
| Budgets.LimitOf | src/budgetmanager/core/budget.py:52-55 | a Decimal limit is kept; an int is whole units; a text goes through `Decimal(text)` and is accepted exactly when it reads as a decimal, with that value; None is rejected; every failure is the ValueError "Invalid limit" |
| Budgets.FromDict | src/budgetmanager/core/budget.py:46-57 | a KeyError for a missing category first, then for a missing limit; a bad limit is a ValueError; it succeeds exactly when both keys are present, the limit reads and the category is text, and then the limit is what the limit reader returns |
| Budgets.DictRoundTrip | src/budgetmanager/core/budget.py:24-57 | `from_dict(to_dict(b)) == b` |
| Budgets.AnyLimitAccepted | src/budgetmanager/core/budget.py:52-57 | an integer text limit and a Decimal limit are both accepted with their values |
| Budgets.LimitTextRejected | src/budgetmanager/core/budget.py:52-55 | a limit text that starts with neither a sign, a digit nor a point is the ValueError "Invalid limit" |
| Budgets.LimitAbcRejected | src/budgetmanager/core/budget.py:52-55 | the limit text "abc" is the ValueError "Invalid limit" |
| Seqs.FilterMembers | src/budgetmanager/ledger.py:133 | a list comprehension with a condition keeps exactly the elements that satisfy it |
| Seqs.FilterMultiset | src/budgetmanager/ledger.py:133 | a list comprehension with a condition keeps every copy of each satisfying element and no copy of any other |
| Seqs.FirstIndexIsFirst | src/budgetmanager/ledger.py:83 | an index holding `x` with no `x` before it is where the first `x` is |
| Seqs.RemoveFirst | src/budgetmanager/ledger.py:83 | `list.remove` drops exactly the first occurrence and shortens the list by one |
| Seqs.RemoveFirstMultiset | src/budgetmanager/ledger.py:83 | removal takes exactly one copy of the element out of the multiset of elements |
| Seqs.RemoveOnlyOccurrence | src/budgetmanager/ledger.py:83 | removing the only copy leaves no copy |
| Ledgers.Balance | src/budgetmanager/ledger.py:97 | the balance is income plus expenses |
| Ledgers.Income | src/budgetmanager/ledger.py:106-109 | the income total is never negative |
| Ledgers.Expenses | src/budgetmanager/ledger.py:118-121 | the expense total is never positive |
| Ledgers.SumsConcat | src/budgetmanager/ledger.py:97-121 | balance, income and expenses add up over concatenated lists |
| Ledgers.SumsSplice | src/budgetmanager/ledger.py:82-121 | taking one transaction out of the middle of a list takes its amount out of the balance and out of the total it belongs to |
| Ledgers.BalanceOfMiddle | src/budgetmanager/ledger.py:199-221 | the balance of a middle part plus the balance of the outer parts is the balance of the whole |
| Ledgers.SumsRemove | src/budgetmanager/ledger.py:82-121 | removing a transaction takes its amount out of the balance and out of the total it belongs to |
| Ledgers.IncomeIsFilteredSum | src/budgetmanager/ledger.py:106-121 | the income and expense totals are the sums over the income and expense transactions |
| Ledgers.SliceIndex | src/budgetmanager/ledger.py:199-200 | a slice bound is clamped to 0..len, counts from the end when negative, and defaults when omitted |
| Ledgers.SliceRange | src/budgetmanager/ledger.py:199-200 | a slice selects `lo..hi` with `lo <= hi <= len`; a stop before the start selects nothing |
| Ledgers.SliceExamples | src/budgetmanager/ledger.py:199-200 | `[1:4]`, `[-2:]`, `[:]`, `[4:1]` and `[-9:99]` of five elements |
| Ledgers.BalanceWithout | src/budgetmanager/ledger.py:199-221 | for `lo <= hi <= len`, the balance of `s[lo:hi]` plus the balance of what remains after deleting it is the balance of `s` |
| Ledgers.SliceSplitsBalance | src/budgetmanager/ledger.py:199-221 | the balance of a slice plus the balance of what deleting that slice leaves is the whole balance |
| Ledgers.Ledger.constructor | src/budgetmanager/ledger.py:45-47 | the new ledger holds a copy of the initial transactions, or none |
| Ledgers.Ledger.AddTransaction | src/budgetmanager/ledger.py:63-67 | appends the transaction; the balance grows by its amount |
| Ledgers.Ledger.RemoveTransaction | src/budgetmanager/ledger.py:82-85 | succeeds exactly when the transaction is present and then removes its first occurrence, one copy and its amount from the balance; otherwise the ValueError "not found" with the ledger unchanged |
| Ledgers.Ledger.GetBalance | src/budgetmanager/ledger.py:97 | the balance is total income plus total expenses |
| Ledgers.Ledger.TotalIncome | src/budgetmanager/ledger.py:106-109 | non-negative; the sum over the income transactions |
| Ledgers.Ledger.TotalExpenses | src/budgetmanager/ledger.py:118-121 | non-positive; the sum over the expense transactions |
| Ledgers.Ledger.FilterByCategory | src/budgetmanager/ledger.py:133 | holds exactly the ledger's transactions of that category, each as many times as the ledger holds it, in ledger order |
| Ledgers.Ledger.FilterByDateRange | src/budgetmanager/ledger.py:148-151 | holds exactly the transactions with `start <= timestamp <= end`, each as many times as the ledger holds it, in ledger order; empty when the end is before the start |
| Ledgers.Ledger.Len | src/budgetmanager/ledger.py:163 | the number of transactions |
| Ledgers.Ledger.GetItem | src/budgetmanager/ledger.py:199-202 | succeeds exactly for `-len <= i < len`, counting negative indices from the end; otherwise IndexError |
| Ledgers.Ledger.GetSlice | src/budgetmanager/ledger.py:199-200 | a new ledger holding the selected slice |
| Ledgers.Ledger.DelItem | src/budgetmanager/ledger.py:221 | succeeds exactly for `-len <= i < len` and removes that one position; otherwise IndexError with the ledger unchanged |
| Ledgers.Ledger.DelSlice | src/budgetmanager/ledger.py:221 | removes exactly the selected slice |
| Ledgers.Ledger.Contains | src/budgetmanager/ledger.py:236 | true exactly when some position holds the transaction |
| Ledgers.Ledger.Truthy | src/budgetmanager/ledger.py:252 | true exactly when the ledger is not empty |
| Ledgers.Ledger.Equals | src/budgetmanager/ledger.py:271-273 | true exactly when both ledgers hold the same transactions in the same order |
| Ledgers.Ledger.Plus | src/budgetmanager/ledger.py:292-294 | a new ledger holding the left transactions followed by the right ones; the balances add |
| Ledgers.Ledger.IAdd | src/budgetmanager/ledger.py:312-315 | extends this ledger by the other's transactions and returns this same ledger; the balances add |
| Ledgers.Ledger.Copy | src/budgetmanager/ledger.py:328 | a new ledger equal to this one |
| Reports.Items | src/budgetmanager/core/report.py:53-54 | the summary dict's keys are income, expenses and balance, in that order |
| Reports.SummaryOf | src/budgetmanager/core/report.py:51-54 | income is non-negative and is the sum of the income transactions; expenses is non-positive and is the sum of the expense transactions; balance is income plus expenses, the balance of all |
| Reports.MonthWindow | src/budgetmanager/core/report.py:44-48 | the window runs from the 1st of the month to the 1st of the next month, rolling December over into January; it fails with ValueError exactly when a bound is not a date |
| Reports.MonthWindowMembership | src/budgetmanager/core/report.py:44-50 | the window keeps exactly the transactions dated in that month, plus one stamped at the next month's first instant |
| Reports.YearWindowMembership | src/budgetmanager/core/report.py:72-74 | the window keeps exactly the transactions dated in that year, plus one stamped at the next year's first instant |
| Reports.MonthlySummary | src/budgetmanager/core/report.py:39-54 | ValueError for a month outside 1..12; otherwise it succeeds exactly when both window bounds are dates; on success it is the summary of the transactions the month counts |
| Reports.YearlySummary | src/budgetmanager/core/report.py:70-76 | succeeds exactly for years 1..9998 and is then the summary of the transactions the year counts |
| Reports.BoundaryCountedTwice | src/budgetmanager/core/report.py:44-50 | midnight on 1 January 2025 is counted in December 2024 and in January 2025, and in both years |
| Reports.LeapDayCounted | src/budgetmanager/core/report.py:44-50 | 29 February 2024 is counted in February and not in March |
| Reports.EmptyMonth | src/budgetmanager/core/report.py:50-54 | a month that counts nothing has an all-zero summary |
| Reports.JanuaryExample | src/budgetmanager/core/report.py:39-54 | an income of 100.00 and an expense of 40.00 in January give income 100.00, expenses -40.00 and balance 60.00 |
| Reports.CsvRows | src/budgetmanager/core/report.py:96-99 | a header row, then one row per entry in order, with the key and a text that reads back as the value |
| Charts.SumsPositive | src/budgetmanager/core/chart.py:46-55 | income is positive exactly when some transaction is income; expenses are negative exactly when some transaction is an expense |
| Charts.CategoryTotalsPositive | src/budgetmanager/core/chart.py:46-55 | a category's income total is positive exactly when it has an income; its expense total likewise |
| Charts.CategoryTotalsStep | src/budgetmanager/core/chart.py:50-55 | one more transaction adds its amount to its category's income, or its absolute amount to its category's expenses |
| Charts.IncomeStep | src/budgetmanager/core/chart.py:52-53 | one loop step keeps the income map equal to the per-category income totals |
| Charts.ExpenseStep | src/budgetmanager/core/chart.py:54-55 | one loop step keeps the expense map equal to the per-category absolute expense totals |
| Charts.Aggregate | src/budgetmanager/core/chart.py:43-55 | the categories are exactly those of the transactions; the income and expense maps have exactly the categories with an income or an expense, each mapped to its positive total |
| Charts.DatePart | src/budgetmanager/core/chart.py:132-133 | the text before the first 'T' of the ISO form is the date part |
| Charts.ExportFileName | src/budgetmanager/core/chart.py:132-134 | "chart_", the start date, "_to_", the end date, a point and the format |
| Charts.ExportFileNameIsName | src/budgetmanager/core/chart.py:134-135 | for a format without '/', the file name is a single path component |
| Charts.ChartsDirectory | src/budgetmanager/core/chart.py:131 | `create_directory("processed/charts")` is the data root followed by processed and charts |
| Charts.ChartPathJoin | src/budgetmanager/core/chart.py:135 | joining a name onto the charts directory gives the chart's path |
| Charts.ChartPathInChartsDirectory | src/budgetmanager/core/chart.py:131-135 | the saved chart is `create_directory("processed/charts") / filename` |
| Charts.GenerateChart | src/budgetmanager/core/chart.py:43-71 | no data exactly when nothing is in range; the ValueError for the format exactly when data are in range and the format is truthy and neither png nor svg; otherwise it draws the aggregated totals, and saves exactly for a truthy format, at the export path |
| Charts.ZeroAmountCategory | src/budgetmanager/core/chart.py:48-55 | a zero-amount transaction names its category but enters neither total |
| Files.Segments | src/budgetmanager/file/file_handler.py:42 | splitting on '/' gives at least one segment, none containing '/' |
| Files.ParsePath | src/budgetmanager/file/file_handler.py:42 | the parsed path has only proper names as parts and is absolute exactly when the text starts with '/' |
| Files.SegmentsOfConcat | src/budgetmanager/file/file_handler.py:42 | text that starts with a separator-free name and a '/' has that name as its first segment |
| Files.SegmentsAfterSlash | src/budgetmanager/file/file_handler.py:42 | a leading '/' contributes one empty segment before the segments of the rest |
| Files.DropEmptyHead | src/budgetmanager/file/file_handler.py:42 | parsing drops an empty leading segment |
| Files.ParseRenderEmpty | src/budgetmanager/file/file_handler.py:42 | the empty relative path and the root path parse back from their renderings |
| Files.ParseRenderNames | src/budgetmanager/file/file_handler.py:42 | a path with at least one name parses back from its rendering |
| Files.SegmentsOfJoin | src/budgetmanager/file/file_handler.py:42 | splitting names joined with '/' gives the names back |
| Files.FilterKeepsAll | src/budgetmanager/file/file_handler.py:42 | parsing keeps every proper name |
| Files.ParseRender | src/budgetmanager/file/file_handler.py:42 | parsing the rendered form of a path gives the path back |
| Files.JoinPath | src/budgetmanager/file/file_handler.py:43 | joining an absolute path gives that path; joining a relative path appends its parts |
| Files.JoinAllRelative | src/budgetmanager/file/file_handler.py:106 | joining only relative components appends all their names to the base |
| Files.GetDirectoryPath | src/budgetmanager/file/file_handler.py:103-106 | IndexError exactly for no components; an absolute first component is returned as is; relative components are appended to the data root |
| Files.GetFilePath | src/budgetmanager/file/file_handler.py:120-123 | the same resolution as get_directory_path |
| Files.ParseName | src/budgetmanager/file/file_handler.py:42 | a single name parses to a one-part relative path |
| Files.JoinName | src/budgetmanager/file/file_handler.py:83 | joining a single name appends it |
| Files.ParseRooted | src/budgetmanager/file/file_handler.py:42 | "/" followed by a name parses to a one-part absolute path |
| Files.ParseTwoNames | src/budgetmanager/file/file_handler.py:42 | two names joined by '/' parse to a two-part relative path |
| Files.LaterAbsoluteResets | src/budgetmanager/file/file_handler.py:106 | for any names a, x and b, the components a, "/x" and b resolve to the absolute path /x/b: a later absolute component discards everything joined before it |
| Files.NestedComponent | src/budgetmanager/file/file_handler.py:106 | for any names a, b and c, the components a and "b/c" resolve to the data root followed by a, b and c: a component holding '/' contributes each of its names |
| Files.CreateNested | src/budgetmanager/file/file_handler.py:42-43 | creating the relative directory "x/y" for names x and y places both names under the data root |
| Files.CreateDirectory | src/budgetmanager/file/file_handler.py:42-43 | an absolute path is taken as is; a relative path is placed under the data root |
| Files.AsciiLower | src/budgetmanager/file/file_handler.py:83 | lower-casing keeps the length and maps each character |
| Files.CreateFileAsWritten | src/budgetmanager/file/file_handler.py:71-83 | as written, `create_file` succeeds exactly when both `re.match` checks accept; each accepts a valid text and also a valid text followed by one newline |
| Files.TrailingNewlineAccepted | src/budgetmanager/file/file_handler.py:71-76 | "report\n" and "txt\n" pass the checks as written, and the resulting file name holds a newline |
| Files.StoredName | src/budgetmanager/file/file_handler.py:83 | for a valid name and type, `name.type` with the type lower-cased is the name's characters, a point, then only lower-case letters and digits |
| Files.CreateFile | src/budgetmanager/file/file_handler.py:71-83 | a bad name fails first, then a bad type; it succeeds exactly on a non-empty name of letters, digits, '_' and '-' and a non-empty alphanumeric type; the file lies in the created directory and is named name, a point and the lower-cased type |
| Files.AsWrittenAgreesWithoutNewline | src/budgetmanager/file/file_handler.py:71-83 | without a trailing newline the checks as written and the corrected checks agree |

## Left out

- Type checks are not modelled. Operands are typed, so the `TypeError` branches (for example ledger.py:63-66) and the `NotImplemented` returns of the comparisons cannot be reached.
- Hashing, `__repr__` and `__str__` are not modelled; they are only display and hashing.
- `__iter__` is not modelled: iteration is the `transactions` sequence itself.
- `__deepcopy__` is not modelled separately. Transactions are values, so a deep copy is `Ledgers.Ledger.Copy`.
- `Timestamp.now`, `from_datetime`, `to_datetime`, `__float__` and the constructor's type checks are not modelled. They involve the clock, floating point or runtime types.
- `fromisoformat` is modelled only for the forms `isoformat` prints: a date, a date with a time, and a date with a time and six fraction digits. Time zone offsets and the other ISO 8601 forms that Python accepts are not modelled.
- Amounts have exactly two decimal places. `Decimal` exponents, NaN, infinities, whitespace, underscores and more than two fraction digits are not modelled; the model treats such text as an invalid amount.
- DecimalText.ParseInt: the surrounding whitespace and the digit-group underscores that Python's `int()` accepts are not modelled; such text is an invalid id.
- Arithmetic.Mul: exact, without `Decimal`'s 28-digit context rounding.
- Arithmetic.Div: exact, without `Decimal`'s 28-digit context rounding.
- Arithmetic.Add: a scalar operand is a real number; the round trip of a float through `Decimal(str(x))` is not modelled.
- Transactions.FromDict: a category or description that is not text is stored unchecked by Python; the model reports it as an error (`NonTextField`).
- CoreTransactions.FromDict: a category or description that is not text is stored unchecked by Python; the model reports it as an error (`NonTextField`).
- Budgets.FromDict: a category that is not text is stored unchecked by Python; the model reports it as an error (`NonTextField`).
- Float dictionary values are not modelled: a `Value` is a text, an int, a decimal or None. The amount reader's `Decimal(x)` (src/budgetmanager/transaction.py:316-318 and src/budgetmanager/core/transaction.py:370-372) keeps a float's exact binary expansion, which whole hundredths cannot hold; the limit reader's `Decimal(str(x))` (src/budgetmanager/core/budget.py:53) and the id reader's `int(x)` on a float (src/budgetmanager/core/transaction.py:350) are left out with it.
- Ledgers.Ledger.GetSlice: slices with a step other than 1 are not modelled.
- Ledgers.Ledger.DelSlice: slices with a step other than 1 are not modelled.
- Filesystem side effects are not modelled: `mkdir`, `touch`, `savefig`, writing the CSV file and its quoting, and the `OSError` paths. The model computes the paths and rows these would use.
- Reports.CsvRows: models only the amounts of a summary as the exported values, not arbitrary Python values.
- The ASCII bar charts, the matplotlib figure and all printing are not modelled.
- Charts.GenerateChart: returns what would be drawn and saved instead of printing or drawing it.
- `pathlib` details are not modelled: a leading `//`, the empty path, `..` components and non-POSIX separators.
- `config.DATA_ROOT` is a parameter (`root`) rather than a configured constant.
- core/ledger.py is not part of this model; reports and charts use the ledger of ledger.py.
- Ledger `to_dict`/`from_dict` and `range_summary` are not part of the modelled sources.

## Findings

| source | as written | input that shows it | evidently intended | confidence | as-written member | corrected member |
|---|---|---|---|---|---|---|
| src/budgetmanager/file/file_handler.py:71-76 | `re.match(r'^[A-Za-z0-9_-]+$', …)`: `$` also matches before a final newline | file name "report\n" (or file type "txt\n") is accepted and the file name gets a newline | accept only names made entirely of the allowed characters (`re.fullmatch` or `\Z`) | not executed | Files.TrailingNewlineAccepted | Files.CreateFile |
