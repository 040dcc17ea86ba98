/**
  The three summary endpoints: monthly summary with category breakdown, yearly
  summary, and budget status. Each loop of the handlers is a method proved
  against the reference sums of module Ledger.
 */
module Summary {
  import opened Wrappers
  import opened Period
  import opened Model
  import opened Ledger

  /** One row of `category_breakdown`. */
  datatype BreakdownEntry = BreakdownEntry(
    categoryId: Id,
    categoryName: string,
    catType: TxType,
    total: int,
    budgetLimit: int,
    color: string)

  datatype MonthlySummary = MonthlySummary(
    month: int,
    year: int,
    totalIncome: int,
    totalExpenses: int,
    balance: int,
    breakdown: seq<BreakdownEntry>)

  /** `{row["id"]: row for row in categories}`: a later row with the same id wins. */
  function CategoryMap(cats: seq<Category>): (m: map<Id, Category>)
    ensures forall c :: c in cats ==> c.id in m
    ensures forall k :: k in m ==> m[k] in cats && m[k].id == k
  {
    if cats == [] then map[]
    else CategoryMap(Init(cats))[Last(cats).id := Last(cats)]
  }

  /** The breakdown entry of category `cid` with total `total`; a category missing
      from the map is shown as "Unknown", of type expense, limit 0, default color. */
  function EntryFor(cid: Id, total: int, catMap: map<Id, Category>): (e: BreakdownEntry)
    ensures e.categoryId == cid && e.total == total
    ensures cid !in catMap ==>
      e.categoryName == "Unknown" && e.catType == Expense && e.budgetLimit == 0 && e.color == DefaultColor
    ensures cid in catMap ==>
      e.categoryName == catMap[cid].name && e.catType == catMap[cid].catType
      && e.budgetLimit == catMap[cid].budgetLimit.GetOr(0) && e.color == catMap[cid].color.GetOr(DefaultColor)
  {
    if cid in catMap then
      var c := catMap[cid];
      BreakdownEntry(cid, c.name, c.catType, total, c.budgetLimit.GetOr(0), c.color.GetOr(DefaultColor))
    else
      BreakdownEntry(cid, "Unknown", Expense, total, 0, DefaultColor)
  }

  function EntriesTotal(entries: seq<BreakdownEntry>): int
  {
    if entries == [] then 0 else EntriesTotal(Init(entries)) + Last(entries).total
  }

  /** A breakdown whose entries carry the totals of `ids` adds up to their sum. */
  lemma {:induction false} EntriesTotalIsSumOver(entries: seq<BreakdownEntry>, ids: seq<Id>, rows: seq<Transaction>)
    requires |entries| == |ids|
    requires forall k :: 0 <= k < |ids| ==> entries[k].total == CategorySum(rows, ids[k])
    ensures EntriesTotal(entries) == SumOver(ids, rows)
  {
    if entries != [] {
      EntriesTotalIsSumOver(Init(entries), Init(ids), rows);
    }
  }

  /** The state of the first loop of the monthly summary after the rows `p`. */
  ghost predicate Accumulated(p: seq<Transaction>, income: int, expenses: int, totals: map<Id, int>, order: seq<Id>) {
    && income == KindSum(p, Income)
    && expenses == KindSum(p, Expense)
    && order == CategoryIds(p)
    && (forall k :: k in totals <==> k in order)
    && (forall k :: k in totals ==> totals[k] == CategorySum(p, k))
  }

  /** One row `t` moves the state of the first loop from `p` to `p + [t]`: its
      amount goes to income or expenses by type and to its category, which starts
      at 0 and is appended to the key order the first time it is seen. */
  lemma AccumulateRow(p: seq<Transaction>, t: Transaction,
                      income: int, expenses: int, totals: map<Id, int>, order: seq<Id>,
                      income': int, expenses': int, totals': map<Id, int>, order': seq<Id>)
    requires Accumulated(p, income, expenses, totals, order)
    requires income' == income + (if t.txType == Income then t.amount else 0)
    requires expenses' == expenses + (if t.txType == Income then 0 else t.amount)
    requires order' == if t.categoryId in totals then order else order + [t.categoryId]
    requires t.categoryId in totals'
    requires totals'[t.categoryId] == (if t.categoryId in totals then totals[t.categoryId] else 0) + t.amount
    requires forall k :: k != t.categoryId ==> (k in totals' <==> k in totals)
    requires forall k :: k != t.categoryId && k in totals ==> totals'[k] == totals[k]
    ensures Accumulated(p + [t], income', expenses', totals', order')
  {
    assert Init(p + [t]) == p && Last(p + [t]) == t;
    if t.categoryId !in totals {
      CategoryIdsSpec(p);
      UnmentionedIsZero(p, t.categoryId);
    }
  }

  /**
    The first loop of the monthly summary over the period's rows: income rows
    add to `total_income`, every other row to `total_expenses`, and each row
    adds to the total of its category, which is created at 0 on first sight.
   */
  method AccumulateTotals(rows: seq<Transaction>)
    returns (income: int, expenses: int, totals: map<Id, int>, order: seq<Id>)
    ensures income == KindSum(rows, Income) && expenses == KindSum(rows, Expense)
    ensures order == CategoryIds(rows)
    ensures forall k :: k in totals <==> k in order
    ensures forall k :: k in totals ==> totals[k] == CategorySum(rows, k)
  {
    income, expenses := 0, 0;
    totals, order := map[], [];
    var i := 0;
    while i < |rows|
      invariant 0 <= i <= |rows|
      invariant Accumulated(rows[..i], income, expenses, totals, order)
    {
      var t := rows[i];
      ghost var income0, expenses0, totals0, order0 := income, expenses, totals, order;
      if t.txType == Income {
        income := income + t.amount;
      } else {
        expenses := expenses + t.amount;
      }
      if t.categoryId !in totals {
        totals := totals[t.categoryId := 0];
        order := order + [t.categoryId];
      }
      totals := totals[t.categoryId := totals[t.categoryId] + t.amount];
      AccumulateRow(rows[..i], t, income0, expenses0, totals0, order0, income, expenses, totals, order);
      assert rows[..i + 1] == rows[..i] + [t];
      i := i + 1;
    }
    assert rows[..i] == rows;
  }

  /** The second loop: one breakdown entry per category id of `order`, in order. */
  method BuildBreakdown(order: seq<Id>, totals: map<Id, int>, catMap: map<Id, Category>, rows: seq<Transaction>)
    returns (breakdown: seq<BreakdownEntry>)
    requires forall k :: k in order ==> k in totals && totals[k] == CategorySum(rows, k)
    ensures |breakdown| == |order|
    ensures forall k :: 0 <= k < |order| ==> breakdown[k] == EntryFor(order[k], CategorySum(rows, order[k]), catMap)
  {
    breakdown := [];
    var j := 0;
    while j < |order|
      invariant 0 <= j <= |order|
      invariant |breakdown| == j
      invariant forall k :: 0 <= k < j ==> breakdown[k] == EntryFor(order[k], CategorySum(rows, order[k]), catMap)
    {
      breakdown := breakdown + [EntryFor(order[j], totals[order[j]], catMap)];
      j := j + 1;
    }
  }

  /**
    The monthly summary of the period's rows: the per-type totals, their
    difference, and one breakdown entry per category in order of first
    appearance; the breakdown covers exactly the categories the rows mention,
    once each, and adds up to the sum of all rows.
   */
  method Summarize(rows: seq<Transaction>, catMap: map<Id, Category>, month: int, year: int)
    returns (s: MonthlySummary)
    ensures s.month == month && s.year == year
    ensures s.totalIncome == KindSum(rows, Income)
    ensures s.totalExpenses == KindSum(rows, Expense)
    ensures s.balance == s.totalIncome - s.totalExpenses
    ensures |s.breakdown| == |CategoryIds(rows)|
    ensures forall k :: 0 <= k < |s.breakdown| ==>
      s.breakdown[k] == EntryFor(CategoryIds(rows)[k], CategorySum(rows, CategoryIds(rows)[k]), catMap)
    ensures forall cid :: (exists k :: 0 <= k < |s.breakdown| && s.breakdown[k].categoryId == cid) <==> Mentions(rows, cid)
    ensures forall i, j :: 0 <= i < j < |s.breakdown| ==> s.breakdown[i].categoryId != s.breakdown[j].categoryId
    ensures EntriesTotal(s.breakdown) == s.totalIncome + s.totalExpenses
  {
    var income, expenses, totals, order := AccumulateTotals(rows);
    var breakdown := BuildBreakdown(order, totals, catMap, rows);
    s := MonthlySummary(month, year, income, expenses, income - expenses, breakdown);
    BreakdownCoversRows(breakdown, rows, catMap);
  }

  /** A breakdown with one entry per category id of the rows, in order, names
      exactly the categories the rows mention, each once, and its totals add up
      to income plus expenses. */
  lemma BreakdownCoversRows(breakdown: seq<BreakdownEntry>, rows: seq<Transaction>, catMap: map<Id, Category>)
    requires |breakdown| == |CategoryIds(rows)|
    requires forall k :: 0 <= k < |breakdown| ==>
      breakdown[k] == EntryFor(CategoryIds(rows)[k], CategorySum(rows, CategoryIds(rows)[k]), catMap)
    ensures forall cid :: (exists k :: 0 <= k < |breakdown| && breakdown[k].categoryId == cid) <==> Mentions(rows, cid)
    ensures forall i, j :: 0 <= i < j < |breakdown| ==> breakdown[i].categoryId != breakdown[j].categoryId
    ensures EntriesTotal(breakdown) == KindSum(rows, Income) + KindSum(rows, Expense)
  {
    var order := CategoryIds(rows);
    CategoryIdsSpec(rows);
    forall cid
      ensures (exists k :: 0 <= k < |breakdown| && breakdown[k].categoryId == cid) <==> Mentions(rows, cid)
    {
      if Mentions(rows, cid) {
        var k :| 0 <= k < |order| && order[k] == cid;
        assert breakdown[k].categoryId == cid;
      }
    }
    EntriesTotalIsSumOver(breakdown, order, rows);
    BreakdownSumsToTotal(rows);
    KindsPartitionTotal(rows);
  }

  /** `get_monthly_summary` of the relational backend: every row of the period
      and every category. */
  method MonthlySummaryPg(txs: seq<Transaction>, cats: seq<Category>, month: int, year: int)
    returns (s: MonthlySummary)
    ensures s.month == month && s.year == year
    ensures s.totalIncome == KindSum(PeriodRows(txs, month, year), Income)
    ensures s.totalExpenses == KindSum(PeriodRows(txs, month, year), Expense)
    ensures s.balance == s.totalIncome - s.totalExpenses
    ensures EntriesTotal(s.breakdown) == s.totalIncome + s.totalExpenses
    ensures forall cid :: (exists k :: 0 <= k < |s.breakdown| && s.breakdown[k].categoryId == cid)
                          <==> Mentions(PeriodRows(txs, month, year), cid)
    ensures forall i, j :: 0 <= i < j < |s.breakdown| ==> s.breakdown[i].categoryId != s.breakdown[j].categoryId
    ensures |s.breakdown| == |CategoryIds(PeriodRows(txs, month, year))|
    ensures forall k :: 0 <= k < |s.breakdown| ==>
      s.breakdown[k] == EntryFor(CategoryIds(PeriodRows(txs, month, year))[k],
                                 CategorySum(PeriodRows(txs, month, year), CategoryIds(PeriodRows(txs, month, year))[k]),
                                 CategoryMap(cats))
  {
    s := Summarize(PeriodRows(txs, month, year), CategoryMap(cats), month, year);
  }

  /** `get_monthly_summary` of the document backend: only the first 1000 rows of
      the period and the first 100 categories are read. */
  method MonthlySummaryMongo(txs: seq<Transaction>, cats: seq<Category>, month: int, year: int)
    returns (s: MonthlySummary)
    ensures s.month == month && s.year == year
    ensures s.totalIncome == KindSum(Take(PeriodRows(txs, month, year), 1000), Income)
    ensures s.totalExpenses == KindSum(Take(PeriodRows(txs, month, year), 1000), Expense)
    ensures s.balance == s.totalIncome - s.totalExpenses
    ensures EntriesTotal(s.breakdown) == s.totalIncome + s.totalExpenses
    ensures forall cid :: (exists k :: 0 <= k < |s.breakdown| && s.breakdown[k].categoryId == cid)
                          <==> Mentions(Take(PeriodRows(txs, month, year), 1000), cid)
    ensures forall i, j :: 0 <= i < j < |s.breakdown| ==> s.breakdown[i].categoryId != s.breakdown[j].categoryId
    ensures |s.breakdown| == |CategoryIds(Take(PeriodRows(txs, month, year), 1000))|
    ensures forall k :: 0 <= k < |s.breakdown| ==>
      s.breakdown[k] == EntryFor(CategoryIds(Take(PeriodRows(txs, month, year), 1000))[k],
                                 CategorySum(Take(PeriodRows(txs, month, year), 1000), CategoryIds(Take(PeriodRows(txs, month, year), 1000))[k]),
                                 CategoryMap(Take(cats, 100)))
  {
    s := Summarize(Take(PeriodRows(txs, month, year), 1000), CategoryMap(Take(cats, 100)), month, year);
  }
  /** One entry of `monthly_data`. */
  datatype MonthTotals = MonthTotals(month: int, income: int, expenses: int, balance: int)

  datatype YearlySummary = YearlySummary(year: int, monthlyData: seq<MonthTotals>, totalIncome: int, totalExpenses: int)

  /** `sum(m["income"] for m in monthly_data)`. */
  function IncomeOf(data: seq<MonthTotals>): int
  {
    if data == [] then 0 else IncomeOf(Init(data)) + Last(data).income
  }

  /** `sum(m["expenses"] for m in monthly_data)`. */
  function ExpensesOf(data: seq<MonthTotals>): int
  {
    if data == [] then 0 else ExpensesOf(Init(data)) + Last(data).expenses
  }

  /** The entry of month `month`: that month's per-type sums and their difference. */
  function MonthEntry(txs: seq<Transaction>, year: int, month: int): MonthTotals
  {
    var income := KindSum(PeriodRows(txs, month, year), Income);
    var expenses := KindSum(PeriodRows(txs, month, year), Expense);
    MonthTotals(month, income, expenses, income - expenses)
  }

  /** The entries of months 1..n, in order. */
  function MonthEntries(txs: seq<Transaction>, year: int, n: nat): (r: seq<MonthTotals>)
    ensures |r| == n
  {
    if n == 0 then [] else MonthEntries(txs, year, n - 1) + [MonthEntry(txs, year, n)]
  }

  /** The i-th of the entries of months 1..n is the entry of month i + 1. */
  lemma {:induction false} MonthEntriesAt(txs: seq<Transaction>, year: int, n: nat)
    ensures forall i :: 0 <= i < n ==> MonthEntries(txs, year, n)[i] == MonthEntry(txs, year, i + 1)
  {
    if n > 0 {
      MonthEntriesAt(txs, year, n - 1);
      var prev := MonthEntries(txs, year, n - 1);
      assert forall i :: 0 <= i < n - 1 ==> (prev + [MonthEntry(txs, year, n)])[i] == prev[i];
    }
  }

  /** Summing the income and expenses of the entries of months 1..n gives the
      per-type sums of those months' rows. */
  lemma {:induction false} MonthEntriesTotals(txs: seq<Transaction>, year: int, n: nat)
    ensures IncomeOf(MonthEntries(txs, year, n)) == MonthsKindSum(txs, year, Income, n)
    ensures ExpensesOf(MonthEntries(txs, year, n)) == MonthsKindSum(txs, year, Expense, n)
  {
    if n > 0 {
      MonthEntriesTotals(txs, year, n - 1);
      var prev := MonthEntries(txs, year, n - 1);
      var e := MonthEntry(txs, year, n);
      assert Init(prev + [e]) == prev && Last(prev + [e]) == e;
    }
  }

  /** The loop of `get_yearly_summary`: the entries of months 1..12, in order. */
  method MonthlyData(txs: seq<Transaction>, year: int) returns (data: seq<MonthTotals>)
    ensures data == MonthEntries(txs, year, 12)
  {
    data := [];
    var month := 1;
    while month <= 12
      invariant 1 <= month <= 13
      invariant data == MonthEntries(txs, year, month - 1)
    {
      var rows := PeriodRows(txs, month, year);
      var income := KindSum(rows, Income);
      var expenses := KindSum(rows, Expense);
      data := data + [MonthTotals(month, income, expenses, income - expenses)];
      month := month + 1;
    }
  }

  /**
    `get_yearly_summary`: one entry per month 1..12 in order, each from the
    per-type sums of that month's rows, and the year's totals as the sums over
    the entries. When every date names a real month and day, the totals are
    those of all rows dated in the year.
   */
  method YearlySummaryOf(txs: seq<Transaction>, year: int) returns (s: YearlySummary)
    ensures s.year == year && |s.monthlyData| == 12
    ensures forall i :: 0 <= i < 12 ==> s.monthlyData[i] == MonthEntry(txs, year, i + 1)
    ensures s.totalIncome == IncomeOf(s.monthlyData) && s.totalExpenses == ExpensesOf(s.monthlyData)
    ensures AllWellFormed(txs) ==>
      s.totalIncome == KindSum(YearRows(txs, year), Income)
      && s.totalExpenses == KindSum(YearRows(txs, year), Expense)
  {
    var data := MonthlyData(txs, year);
    s := YearlySummary(year, data, IncomeOf(data), ExpensesOf(data));
    MonthEntriesAt(txs, year, 12);
    if AllWellFormed(txs) {
      MonthEntriesTotals(txs, year, 12);
      YearIsSumOfMonths(txs, year, Income);
      YearIsSumOfMonths(txs, year, Expense);
    }
  }

  /** A year without rows has twelve all-zero months and zero totals. */
  lemma EmptyYear(year: int, s: YearlySummary)
    requires |s.monthlyData| == 12
    requires forall i :: 0 <= i < 12 ==> s.monthlyData[i] == MonthEntry([], year, i + 1)
    requires s.totalIncome == IncomeOf(s.monthlyData) && s.totalExpenses == ExpensesOf(s.monthlyData)
    ensures forall i :: 0 <= i < 12 ==>
      s.monthlyData[i].income == 0 && s.monthlyData[i].expenses == 0 && s.monthlyData[i].balance == 0
    ensures s.totalIncome == 0 && s.totalExpenses == 0
  {
    MonthEntriesAt([], year, 12);
    assert s.monthlyData == MonthEntries([], year, 12);
    MonthEntriesTotals([], year, 12);
    MonthsKindSumEmpty(year, Income, 12);
    MonthsKindSumEmpty(year, Expense, 12);
  }

  /** One entry of the budget status. */
  datatype BudgetEntry = BudgetEntry(
    categoryId: Id,
    categoryName: string,
    budgetLimit: int,
    spent: int,
    remaining: int,
    percentage: real,
    overBudget: bool,
    color: string)

  /** The budget figures of one expense category that spent `spent`; a missing
      limit counts as 0 and a missing color as the default. */
  function BudgetEntryFor(cat: Category, spent: int): (e: BudgetEntry)
    ensures e.categoryId == cat.id && e.categoryName == cat.name && e.spent == spent
    ensures e.budgetLimit == cat.budgetLimit.GetOr(0) && e.color == cat.color.GetOr(DefaultColor)
    // remaining: never negative, what is left when under the limit, 0 once it is reached
    ensures e.remaining >= 0
    ensures spent <= e.budgetLimit ==> e.remaining == e.budgetLimit - spent
    ensures spent >= e.budgetLimit ==> e.remaining == 0
    // percentage: capped at 100, and 0 when there is no positive limit
    ensures e.percentage <= 100.0
    ensures e.budgetLimit <= 0 ==> e.percentage == 0.0
    ensures e.budgetLimit > 0 && spent >= e.budgetLimit ==> e.percentage == 100.0
    ensures e.budgetLimit > 0 && spent < e.budgetLimit ==>
      e.percentage * (e.budgetLimit as real) == (spent as real) * 100.0
    ensures e.budgetLimit > 0 && spent >= 0 ==> e.percentage >= 0.0
    // over budget exactly when a positive limit is exceeded
    ensures e.overBudget <==> e.budgetLimit > 0 && spent > e.budgetLimit
  {
    var limit := cat.budgetLimit.GetOr(0);
    var percentage := if limit > 0 then (spent as real) / (limit as real) * 100.0 else 0.0;
    PercentageBounds(spent, limit);
    BudgetEntry(
      cat.id, cat.name, limit, spent,
      if 0 >= limit - spent then 0 else limit - spent,
      if percentage <= 100.0 then percentage else 100.0,
      if limit > 0 then spent > limit else false,
      cat.color.GetOr(DefaultColor))
  }

  /** The share of a positive limit that `spent` uses, in percent, reaches 100
      exactly when the limit is reached, and is not negative when nothing was refunded. */
  lemma PercentageBounds(spent: int, limit: int)
    ensures limit > 0 ==> (spent as real) / (limit as real) * 100.0 * (limit as real) == (spent as real) * 100.0
    ensures limit > 0 && spent >= limit ==> (spent as real) / (limit as real) * 100.0 >= 100.0
    ensures limit > 0 && spent < limit ==> (spent as real) / (limit as real) * 100.0 < 100.0
    ensures limit > 0 && spent >= 0 ==> (spent as real) / (limit as real) * 100.0 >= 0.0
  {
  }

  /** The categories of type expense, in the order they are listed. */
  function ExpenseCategories(cats: seq<Category>): (r: seq<Category>)
    ensures forall c :: c in r <==> c in cats && c.catType == Expense
  {
    if cats == [] then []
    else ExpenseCategories(Init(cats)) + (if Last(cats).catType == Expense then [Last(cats)] else [])
  }

  /**
    The loop of `get_budget_status` over the expense categories it read: one
    entry per category, in order, from what the period's expense rows of that
    category spent (0 when there are none).
   */
  method BuildBudgetStatus(expenseCats: seq<Category>, periodRows: seq<Transaction>)
    returns (r: seq<BudgetEntry>)
    ensures |r| == |expenseCats|
    ensures forall i :: 0 <= i < |r| ==> r[i] == BudgetEntryFor(expenseCats[i], ExpenseSpent(periodRows, expenseCats[i].id))
    ensures forall i :: 0 <= i < |r| && !Mentions(periodRows, expenseCats[i].id) ==> r[i].spent == 0
  {
    r := [];
    var i := 0;
    while i < |expenseCats|
      invariant 0 <= i <= |expenseCats|
      invariant |r| == i
      invariant forall k :: 0 <= k < i ==> r[k] == BudgetEntryFor(expenseCats[k], ExpenseSpent(periodRows, expenseCats[k].id))
    {
      var cat := expenseCats[i];
      r := r + [BudgetEntryFor(cat, ExpenseSpent(periodRows, cat.id))];
      i := i + 1;
    }
    forall k | 0 <= k < |r| && !Mentions(periodRows, expenseCats[k].id)
      ensures r[k].spent == 0
    {
      UnmentionedIsZero(periodRows, expenseCats[k].id);
    }
  }

  /** `get_budget_status` of the relational backend: every expense category. */
  method BudgetStatusPg(txs: seq<Transaction>, cats: seq<Category>, month: int, year: int)
    returns (r: seq<BudgetEntry>)
    ensures |r| == |ExpenseCategories(cats)|
    ensures forall e :: e in r ==> exists c :: c in cats && c.catType == Expense && c.id == e.categoryId
    ensures forall i :: 0 <= i < |r| ==>
      r[i] == BudgetEntryFor(ExpenseCategories(cats)[i],
                             ExpenseSpent(PeriodRows(txs, month, year), ExpenseCategories(cats)[i].id))
  {
    r := BuildBudgetStatus(ExpenseCategories(cats), PeriodRows(txs, month, year));
    forall e | e in r
      ensures exists c :: c in cats && c.catType == Expense && c.id == e.categoryId
    {
      var i :| 0 <= i < |r| && r[i] == e;
      assert ExpenseCategories(cats)[i] in ExpenseCategories(cats);
    }
  }

  /** `get_budget_status` of the document backend: only the first 100 expense
      categories are read. */
  method BudgetStatusMongo(txs: seq<Transaction>, cats: seq<Category>, month: int, year: int)
    returns (r: seq<BudgetEntry>)
    ensures |r| == if |ExpenseCategories(cats)| <= 100 then |ExpenseCategories(cats)| else 100
    ensures forall i :: 0 <= i < |r| ==>
      r[i] == BudgetEntryFor(ExpenseCategories(cats)[i],
                             ExpenseSpent(PeriodRows(txs, month, year), ExpenseCategories(cats)[i].id))
  {
    r := BuildBudgetStatus(Take(ExpenseCategories(cats), 100), PeriodRows(txs, month, year));
  }

  /** A category limited to 100 that spent 150 in the period: nothing remains,
      the percentage is capped at 100 and the category is over budget. */
  lemma OverspentCategory()
    ensures var e := BudgetEntryFor(Category("c1", "Food", Expense, Some(100), Some("#E07A5F"), ""), 150);
      e.spent == 150 && e.remaining == 0 && e.percentage == 100.0 && e.overBudget
  {
  }
}
