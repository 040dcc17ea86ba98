/**
  Reference definitions of the sums the summaries compute, over the rows a
  query returns (in the order it returns them). Every definition peels off the
  LAST row, the way the summary loops consume rows one after another.
 */
module Ledger {
  import opened Period
  import opened Model

  function Last<T>(s: seq<T>): T
    requires |s| > 0
  {
    s[|s| - 1]
  }

  function Init<T>(s: seq<T>): seq<T>
    requires |s| > 0
  {
    s[..|s| - 1]
  }

  /** The first `n` rows, as `.to_list(n)` and `LIMIT n` keep them. */
  function Take<T>(s: seq<T>, n: nat): (r: seq<T>)
    ensures |r| == if |s| <= n then |s| else n
    ensures r <= s
  {
    if |s| <= n then s else s[..n]
  }

  /** Rows dated inside the period of `(month, year)`. */
  function PeriodRows(txs: seq<Transaction>, month: int, year: int): seq<Transaction>
  {
    if txs == [] then []
    else PeriodRows(Init(txs), month, year)
         + (if InPeriod(Last(txs).date, month, year) then [Last(txs)] else [])
  }

  /** Rows dated in `year`. */
  function YearRows(txs: seq<Transaction>, year: int): seq<Transaction>
  {
    if txs == [] then []
    else YearRows(Init(txs), year) + (if Last(txs).date.year == year then [Last(txs)] else [])
  }

  /** Sum of all amounts. */
  function TotalSum(txs: seq<Transaction>): int
  {
    if txs == [] then 0 else TotalSum(Init(txs)) + Last(txs).amount
  }

  /** Sum of the amounts of the rows of kind `kind`. */
  function KindSum(txs: seq<Transaction>, kind: TxType): int
  {
    if txs == [] then 0
    else KindSum(Init(txs), kind) + (if Last(txs).txType == kind then Last(txs).amount else 0)
  }

  /** Sum of the amounts of the rows filed under category `cid`. */
  function CategorySum(txs: seq<Transaction>, cid: Id): int
  {
    if txs == [] then 0
    else CategorySum(Init(txs), cid) + (if Last(txs).categoryId == cid then Last(txs).amount else 0)
  }

  /** Expense amount spent in category `cid`: the `type = 'expense' ... GROUP BY category_id` sum. */
  function ExpenseSpent(txs: seq<Transaction>, cid: Id): int
  {
    if txs == [] then 0
    else ExpenseSpent(Init(txs), cid)
         + (if Last(txs).txType == Expense && Last(txs).categoryId == cid then Last(txs).amount else 0)
  }

  predicate Mentions(txs: seq<Transaction>, cid: Id) {
    exists t :: t in txs && t.categoryId == cid
  }

  /** The category ids of the rows, each once, in order of first appearance:
      the key order of the `category_totals` dict. */
  function CategoryIds(txs: seq<Transaction>): seq<Id>
  {
    if txs == [] then []
    else if Last(txs).categoryId in CategoryIds(Init(txs)) then CategoryIds(Init(txs))
    else CategoryIds(Init(txs)) + [Last(txs).categoryId]
  }

  predicate Distinct<T(==)>(s: seq<T>) {
    forall i, j :: 0 <= i < j < |s| ==> s[i] != s[j]
  }

  /** Sum of the per-category totals of `ids`. */
  function SumOver(ids: seq<Id>, txs: seq<Transaction>): int
  {
    if ids == [] then 0 else SumOver(Init(ids), txs) + CategorySum(txs, Last(ids))
  }

  /** Every row is income or expense, so the two kind sums add up to the total. */
  lemma {:induction false} KindsPartitionTotal(txs: seq<Transaction>)
    ensures KindSum(txs, Income) + KindSum(txs, Expense) == TotalSum(txs)
  {
    if txs != [] {
      KindsPartitionTotal(Init(txs));
    }
  }

  /** A category that no row mentions totals 0 and spends 0. */
  lemma {:induction false} UnmentionedIsZero(txs: seq<Transaction>, cid: Id)
    requires !Mentions(txs, cid)
    ensures CategorySum(txs, cid) == 0
    ensures ExpenseSpent(txs, cid) == 0
  {
    if txs != [] {
      assert forall t :: t in Init(txs) ==> t in txs;
      UnmentionedIsZero(Init(txs), cid);
    }
  }

  /** `CategoryIds` lists exactly the mentioned categories, each once. */
  lemma {:induction false} CategoryIdsSpec(txs: seq<Transaction>)
    ensures Distinct(CategoryIds(txs))
    ensures forall cid :: cid in CategoryIds(txs) <==> Mentions(txs, cid)
  {
    if txs != [] {
      CategoryIdsSpec(Init(txs));
      assert txs == Init(txs) + [Last(txs)];
      forall cid
        ensures Mentions(txs, cid) <==> Mentions(Init(txs), cid) || Last(txs).categoryId == cid
      {
        if Mentions(txs, cid) {
          var t :| t in txs && t.categoryId == cid;
          if t != Last(txs) {
            assert t in Init(txs);
          }
        }
      }
    }
  }

  /** Adding one row to `txs` adds its amount once to the sum over distinct `ids`
      when its category is among them, and nothing otherwise. */
  lemma {:induction false} SumOverAppend(ids: seq<Id>, txs: seq<Transaction>, t: Transaction)
    requires Distinct(ids)
    ensures SumOver(ids, txs + [t]) == SumOver(ids, txs) + (if t.categoryId in ids then t.amount else 0)
  {
    assert Init(txs + [t]) == txs;
    if ids != [] {
      assert Distinct(Init(ids));
      SumOverAppend(Init(ids), txs, t);
      assert ids == Init(ids) + [Last(ids)];
      assert t.categoryId in ids <==> t.categoryId in Init(ids) || t.categoryId == Last(ids);
    }
  }

  /** The per-category totals of the breakdown add up to the total of all rows. */
  lemma {:induction false} BreakdownSumsToTotal(txs: seq<Transaction>)
    ensures SumOver(CategoryIds(txs), txs) == TotalSum(txs)
  {
    if txs != [] {
      var p, t := Init(txs), Last(txs);
      assert txs == p + [t];
      BreakdownSumsToTotal(p);
      CategoryIdsSpec(p);
      SumOverAppend(CategoryIds(p), p, t);
      if t.categoryId !in CategoryIds(p) {
        UnmentionedIsZero(p, t.categoryId);
        assert Init(CategoryIds(txs)) == CategoryIds(p);
        assert Init(txs) == p;
      }
    }
  }
  predicate AllWellFormed(txs: seq<Transaction>) {
    forall t :: t in txs ==> WellFormed(t.date)
  }

  /** Sum of the `kind` totals of the periods of months 1..n of `year`. */
  function MonthsKindSum(txs: seq<Transaction>, year: int, kind: TxType, n: nat): int
  {
    if n == 0 then 0 else MonthsKindSum(txs, year, kind, n - 1) + KindSum(PeriodRows(txs, n, year), kind)
  }

  lemma {:induction false} MonthsKindSumEmpty(year: int, kind: TxType, n: nat)
    ensures MonthsKindSum([], year, kind, n) == 0
  {
    if n > 0 {
      MonthsKindSumEmpty(year, kind, n - 1);
    }
  }

  /** One more row changes the first `n` monthly totals by its amount exactly when
      it is of that kind and dated in one of those months. */
  lemma {:induction false} MonthsKindSumAppend(txs: seq<Transaction>, t: Transaction, year: int, kind: TxType, n: nat)
    requires WellFormed(t.date) && n <= 12
    ensures MonthsKindSum(txs + [t], year, kind, n)
            == MonthsKindSum(txs, year, kind, n)
               + (if t.txType == kind && t.date.year == year && t.date.month <= n then t.amount else 0)
  {
    if n > 0 {
      MonthsKindSumAppend(txs, t, year, kind, n - 1);
      assert Init(txs + [t]) == txs && Last(txs + [t]) == t;
      InPeriodIff(t.date, n, year);
      var rows := PeriodRows(txs, n, year);
      if InPeriod(t.date, n, year) {
        assert Init(rows + [t]) == rows && Last(rows + [t]) == t;
      } else {
        assert rows + [] == rows;
      }
    }
  }

  /** The twelve monthly totals of a year add up to the total of the year's rows,
      for any kind, provided every date names a real month and day. */
  lemma {:induction false} YearIsSumOfMonths(txs: seq<Transaction>, year: int, kind: TxType)
    requires AllWellFormed(txs)
    ensures MonthsKindSum(txs, year, kind, 12) == KindSum(YearRows(txs, year), kind)
  {
    if txs == [] {
      MonthsKindSumEmpty(year, kind, 12);
    } else {
      var p, t := Init(txs), Last(txs);
      assert txs == p + [t];
      assert forall u :: u in p ==> u in txs;
      assert t in txs;
      YearIsSumOfMonths(p, year, kind);
      MonthsKindSumAppend(p, t, year, kind, 12);
      var rows := YearRows(p, year);
      assert YearRows(txs, year) == rows + (if t.date.year == year then [t] else []);
      assert t.date.month <= 12;
      var x := if t.txType == kind && t.date.year == year then t.amount else 0;
      assert MonthsKindSum(txs, year, kind, 12) == MonthsKindSum(p, year, kind, 12) + x;
      if t.date.year == year {
        assert Init(rows + [t]) == rows && Last(rows + [t]) == t;
      } else {
        assert rows + [] == rows;
      }
      assert KindSum(YearRows(txs, year), kind) == KindSum(rows, kind) + x;
    }
  }
}
