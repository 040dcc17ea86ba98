/**
  `get_transactions`: the optional filters, newest first, at most 1000 rows.
 */
module Query {
  import opened Wrappers
  import opened Period
  import opened Model
  import opened Ledger

  /** The query parameters; each may be absent. */
  datatype TxFilter = TxFilter(month: Option<int>, year: Option<int>, txType: Option<TxType>, categoryId: Option<Id>)

  const MaxRows: nat := 1000

  /** `if month and year`: both given and neither is 0. */
  predicate HasPeriod(f: TxFilter) {
    f.month.Some? && f.month.value != 0 && f.year.Some? && f.year.value != 0
  }

  /** `if category_id`: given and not the empty string. */
  predicate HasCategory(f: TxFilter) {
    f.categoryId.Some? && f.categoryId.value != ""
  }

  /** The filters combine conjunctively; an absent filter admits every row. */
  predicate Matches(t: Transaction, f: TxFilter) {
    && (HasPeriod(f) ==> InPeriod(t.date, f.month.value, f.year.value))
    && (f.txType.Some? ==> t.txType == f.txType.value)
    && (HasCategory(f) ==> t.categoryId == f.categoryId.value)
  }

  function Filter(txs: seq<Transaction>, f: TxFilter): (r: seq<Transaction>)
    ensures forall t :: t in r <==> t in txs && Matches(t, f)
    ensures multiset(r) <= multiset(txs)
  {
    if txs == [] then []
    else
      assert txs == Init(txs) + [Last(txs)];
      Filter(Init(txs), f) + (if Matches(Last(txs), f) then [Last(txs)] else [])
  }

  /** Newest first: no row is dated before a row that follows it. */
  predicate SortedDesc(s: seq<Transaction>) {
    forall i, j :: 0 <= i < j < |s| ==> !Before(s[i].date, s[j].date)
  }

  /** Puts `t` into a newest-first sequence, after the rows no older than it. */
  function Insert(t: Transaction, s: seq<Transaction>): (r: seq<Transaction>)
    requires SortedDesc(s)
    ensures SortedDesc(r)
    ensures multiset(r) == multiset(s) + multiset{t}
    ensures forall x :: x in r ==> x == t || x in s
  {
    if s == [] then [t]
    else if Before(s[0].date, t.date) then [t] + s
    else
      assert s == [s[0]] + s[1..];
      var rest := Insert(t, s[1..]);
      assert forall x :: x in s[1..] ==> !Before(s[0].date, x.date);
      ConsSorted(s[0], rest);
      [s[0]] + rest
  }

  /** A row no older than any row of a newest-first sequence can go in front of it. */
  lemma ConsSorted(h: Transaction, s: seq<Transaction>)
    requires SortedDesc(s)
    requires forall x :: x in s ==> !Before(h.date, x.date)
    ensures SortedDesc([h] + s)
  {
  }


  /** `ORDER BY date DESC` / `.sort("date", -1)`. */
  function SortDesc(s: seq<Transaction>): (r: seq<Transaction>)
    ensures SortedDesc(r)
    ensures multiset(r) == multiset(s)
  {
    if s == [] then []
    else
      assert s == [s[0]] + s[1..];
      Insert(s[0], SortDesc(s[1..]))
  }

  /** The rows `get_transactions` returns for the stored rows `txs`. */
  function GetTransactions(txs: seq<Transaction>, f: TxFilter): (r: seq<Transaction>)
    ensures |r| == if |Filter(txs, f)| <= MaxRows then |Filter(txs, f)| else MaxRows
    ensures forall t :: t in r ==> t in txs && Matches(t, f)
    ensures SortedDesc(r)
    ensures multiset(r) <= multiset(Filter(txs, f))
    // no matching row left out is newer than a row returned
    ensures forall u, t :: u in r && t in multiset(Filter(txs, f)) - multiset(r) ==> !Before(u.date, t.date)
  {
    var sorted := SortDesc(Filter(txs, f));
    assert |sorted| == |Filter(txs, f)| by {
      assert |multiset(sorted)| == |multiset(Filter(txs, f))|;
    }
    var r := Take(sorted, MaxRows);
    TopRowsAreNewest(sorted, |r|);
    assert forall t :: t in r ==> t in multiset(sorted);
    r
  }

  /** In a newest-first sequence the first `k` rows are no older than any row left out. */
  lemma TopRowsAreNewest(s: seq<Transaction>, k: nat)
    requires SortedDesc(s) && k <= |s|
    ensures SortedDesc(s[..k])
    ensures multiset(s[..k]) <= multiset(s)
    ensures multiset(s) - multiset(s[..k]) == multiset(s[k..])
    ensures forall u, t :: u in s[..k] && t in multiset(s) - multiset(s[..k]) ==> !Before(u.date, t.date)
  {
    assert s == s[..k] + s[k..];
    assert multiset(s) == multiset(s[..k]) + multiset(s[k..]);
    forall u, t | u in s[..k] && t in multiset(s) - multiset(s[..k])
      ensures !Before(u.date, t.date)
    {
      var i :| 0 <= i < k && s[i] == u;
      assert t in multiset(s[k..]);
      var j :| 0 <= j < |s| - k && s[k..][j] == t;
      assert s[k + j] == t && i < k + j;
    }
  }
}
