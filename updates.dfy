/**
  Partial updates of categories and transactions. The document backend sends
  `{"$set": update_dict}`, where `update_dict` holds the supplied (non-None)
  fields in declaration order; the relational backend builds
  `UPDATE ... SET col = $1, ... WHERE id = $k+1` with a values list. Both are
  modelled here and shown to write the same fields.
 */
module Updates {
  import opened Wrappers
  import opened Period
  import opened Model

  datatype Column = NameCol | BudgetLimitCol | ColorCol | TypeCol | AmountCol | CategoryIdCol | DescriptionCol | DateCol

  /** A value bound to a placeholder or stored in a document field. */
  datatype SqlValue = Text(text: string) | Number(number: int) | Kind(kind: TxType) | Day(day: Date)

  /** One `column = value` pair of an update. */
  datatype FieldValue = FieldValue(column: Column, value: SqlValue)

  /** The entry of one field of `update_dict`: present only when supplied. */
  function Opt(supplied: bool, column: Column, value: SqlValue): seq<FieldValue>
  {
    if supplied then [FieldValue(column, value)] else []
  }

  /** `update_dict` of `update_category`: the supplied fields, in the order
      name, budget_limit, color. The type is not a field of the update. */
  function CategoryUpdateDict(u: CategoryUpdate): (d: seq<FieldValue>)
    ensures d == [] <==> u.name.None? && u.budgetLimit.None? && u.color.None?
    ensures forall fv :: fv in d ==> fv.column in {NameCol, BudgetLimitCol, ColorCol}
    ensures |d| <= 3
  {
    Opt(u.name.Some?, NameCol, Text(u.name.GetOr("")))
    + Opt(u.budgetLimit.Some?, BudgetLimitCol, Number(u.budgetLimit.GetOr(0)))
    + Opt(u.color.Some?, ColorCol, Text(u.color.GetOr("")))
  }

  /** `update_dict` of `update_transaction`: the supplied fields, in the order
      type, amount, category_id, description, date. */
  function TransactionUpdateDict(u: TransactionUpdate): (d: seq<FieldValue>)
    ensures d == [] <==>
      u.txType.None? && u.amount.None? && u.categoryId.None? && u.description.None? && u.date.None?
    ensures forall fv :: fv in d ==> fv.column in {TypeCol, AmountCol, CategoryIdCol, DescriptionCol, DateCol}
    ensures |d| <= 5
  {
    Opt(u.txType.Some?, TypeCol, Kind(u.txType.GetOr(Income)))
    + Opt(u.amount.Some?, AmountCol, Number(u.amount.GetOr(0)))
    + Opt(u.categoryId.Some?, CategoryIdCol, Text(u.categoryId.GetOr("")))
    + Opt(u.description.Some?, DescriptionCol, Text(u.description.GetOr("")))
    + Opt(u.date.Some?, DateCol, Day(u.date.GetOr(Date(0, 0, 0))))
  }

  /** Writing one field of a category; a column a category does not have, or a
      value of the wrong kind, writes nothing. */
  function SetCategoryField(c: Category, fv: FieldValue): Category
  {
    match (fv.column, fv.value)
    case (NameCol, Text(s)) => c.(name := s)
    case (BudgetLimitCol, Number(n)) => c.(budgetLimit := Some(n))
    case (ColorCol, Text(s)) => c.(color := Some(s))
    case _ => c
  }

  /** `$set`: the fields written one after another. */
  function SetCategoryFields(c: Category, d: seq<FieldValue>): Category
    decreases |d|
  {
    if d == [] then c else SetCategoryFields(SetCategoryField(c, d[0]), d[1..])
  }

  function SetTransactionField(t: Transaction, fv: FieldValue): Transaction
  {
    match (fv.column, fv.value)
    case (TypeCol, Kind(k)) => t.(txType := k)
    case (AmountCol, Number(n)) => t.(amount := n)
    case (CategoryIdCol, Text(s)) => t.(categoryId := s)
    case (DescriptionCol, Text(s)) => t.(description := s)
    case (DateCol, Day(d)) => t.(date := d)
    case _ => t
  }

  function SetTransactionFields(t: Transaction, d: seq<FieldValue>): Transaction
    decreases |d|
  {
    if d == [] then t else SetTransactionFields(SetTransactionField(t, d[0]), d[1..])
  }

  lemma {:induction false} SetCategoryFieldsAppend(c: Category, d1: seq<FieldValue>, d2: seq<FieldValue>)
    ensures SetCategoryFields(c, d1 + d2) == SetCategoryFields(SetCategoryFields(c, d1), d2)
    decreases |d1|
  {
    if d1 != [] {
      assert (d1 + d2)[1..] == d1[1..] + d2;
      SetCategoryFieldsAppend(SetCategoryField(c, d1[0]), d1[1..], d2);
    } else {
      assert d1 + d2 == d2;
    }
  }

  lemma {:induction false} SetTransactionFieldsAppend(t: Transaction, d1: seq<FieldValue>, d2: seq<FieldValue>)
    ensures SetTransactionFields(t, d1 + d2) == SetTransactionFields(SetTransactionFields(t, d1), d2)
    decreases |d1|
  {
    if d1 != [] {
      assert (d1 + d2)[1..] == d1[1..] + d2;
      SetTransactionFieldsAppend(SetTransactionField(t, d1[0]), d1[1..], d2);
    } else {
      assert d1 + d2 == d2;
    }
  }

  /** Writing an optional last field after the others. */
  lemma SetCategoryFieldsSnoc(c: Category, d: seq<FieldValue>, supplied: bool, column: Column, value: SqlValue)
    ensures SetCategoryFields(c, d + Opt(supplied, column, value))
            == if supplied then SetCategoryField(SetCategoryFields(c, d), FieldValue(column, value))
               else SetCategoryFields(c, d)
  {
    SetCategoryFieldsAppend(c, d, Opt(supplied, column, value));
    if !supplied {
      assert d + [] == d;
    }
  }

  lemma SetTransactionFieldsSnoc(t: Transaction, d: seq<FieldValue>, supplied: bool, column: Column, value: SqlValue)
    ensures SetTransactionFields(t, d + Opt(supplied, column, value))
            == if supplied then SetTransactionField(SetTransactionFields(t, d), FieldValue(column, value))
               else SetTransactionFields(t, d)
  {
    SetTransactionFieldsAppend(t, d, Opt(supplied, column, value));
    if !supplied {
      assert d + [] == d;
    }
  }

  /** The category after `{"$set": update_dict}`: each supplied field takes its
      new value, every other field (id, type, creation time included) is kept. */
  function ApplyCategoryUpdate(c: Category, u: CategoryUpdate): (r: Category)
    ensures r.id == c.id && r.catType == c.catType && r.createdAt == c.createdAt
    ensures r.name == u.name.GetOr(c.name)
    ensures r.budgetLimit == (if u.budgetLimit.Some? then Some(u.budgetLimit.value) else c.budgetLimit)
    ensures r.color == (if u.color.Some? then Some(u.color.value) else c.color)
  {
    var a := Opt(u.name.Some?, NameCol, Text(u.name.GetOr("")));
    var b := Opt(u.budgetLimit.Some?, BudgetLimitCol, Number(u.budgetLimit.GetOr(0)));
    SetCategoryFieldsSnoc(c, [], u.name.Some?, NameCol, Text(u.name.GetOr("")));
    assert [] + a == a;
    SetCategoryFieldsSnoc(c, a, u.budgetLimit.Some?, BudgetLimitCol, Number(u.budgetLimit.GetOr(0)));
    SetCategoryFieldsSnoc(c, a + b, u.color.Some?, ColorCol, Text(u.color.GetOr("")));
    SetCategoryFields(c, CategoryUpdateDict(u))
  }

  /** The transaction after `{"$set": update_dict}`: each supplied field takes
      its new value, the id and creation time are kept. */
  function ApplyTransactionUpdate(t: Transaction, u: TransactionUpdate): (r: Transaction)
    ensures r.id == t.id && r.createdAt == t.createdAt
    ensures r.txType == u.txType.GetOr(t.txType)
    ensures r.amount == u.amount.GetOr(t.amount)
    ensures r.categoryId == u.categoryId.GetOr(t.categoryId)
    ensures r.description == u.description.GetOr(t.description)
    ensures r.date == u.date.GetOr(t.date)
  {
    var a := Opt(u.txType.Some?, TypeCol, Kind(u.txType.GetOr(Income)));
    var b := Opt(u.amount.Some?, AmountCol, Number(u.amount.GetOr(0)));
    var c := Opt(u.categoryId.Some?, CategoryIdCol, Text(u.categoryId.GetOr("")));
    var d := Opt(u.description.Some?, DescriptionCol, Text(u.description.GetOr("")));
    var t1 := t.(txType := u.txType.GetOr(t.txType));
    var t2 := t1.(amount := u.amount.GetOr(t.amount));
    var t3 := t2.(categoryId := u.categoryId.GetOr(t.categoryId));
    var t4 := t3.(description := u.description.GetOr(t.description));
    SetTransactionFieldsSnoc(t, [], u.txType.Some?, TypeCol, Kind(u.txType.GetOr(Income)));
    assert [] + a == a;
    assert SetTransactionFields(t, []) == t;
    assert SetTransactionFields(t, a) == t1;
    SetTransactionFieldsSnoc(t, a, u.amount.Some?, AmountCol, Number(u.amount.GetOr(0)));
    assert SetTransactionFields(t, a + b) == t2;
    SetTransactionFieldsSnoc(t, a + b, u.categoryId.Some?, CategoryIdCol, Text(u.categoryId.GetOr("")));
    assert SetTransactionFields(t, a + b + c) == t3;
    SetTransactionFieldsSnoc(t, a + b + c, u.description.Some?, DescriptionCol, Text(u.description.GetOr("")));
    assert SetTransactionFields(t, a + b + c + d) == t4;
    SetTransactionFieldsSnoc(t, a + b + c + d, u.date.Some?, DateCol, Day(u.date.GetOr(Date(0, 0, 0))));
    SetTransactionFields(t, TransactionUpdateDict(u))
  }

  /** `column = $param` in the SET list of the relational backend. */
  datatype Assignment = Assignment(column: Column, param: nat)

  /** A built `UPDATE`: the SET list, the values bound to `$1, $2, ...` in order,
      and the placeholder of the `WHERE id = $n` clause. */
  datatype UpdateQuery = UpdateQuery(assignments: seq<Assignment>, values: seq<SqlValue>, whereParam: nat)

  /** The k assignments use `$1..$k` in order and the id is bound to `$k+1`, the
      last value. */
  predicate WellNumbered(q: UpdateQuery) {
    && |q.values| == |q.assignments| + 1
    && q.whereParam == |q.values|
    && forall i :: 0 <= i < |q.assignments| ==> q.assignments[i].param == i + 1
  }

  /** The SET list with every placeholder replaced by the value bound to it. */
  function Resolved(q: UpdateQuery): seq<FieldValue>
    requires WellNumbered(q)
  {
    seq(|q.assignments|, i requires 0 <= i < |q.assignments| =>
      FieldValue(q.assignments[i].column, q.values[q.assignments[i].param - 1]))
  }

  /** The value bound to the placeholder of the WHERE clause. */
  function WhereValue(q: UpdateQuery): SqlValue
    requires WellNumbered(q)
  {
    q.values[q.whereParam - 1]
  }

  /** The state of a builder part-way: `paramNum` is the next free placeholder
      and every assignment so far resolves to the matching entry of `dict`. */
  ghost predicate Building(fields: seq<Assignment>, values: seq<SqlValue>, paramNum: int, dict: seq<FieldValue>) {
    && |fields| == |values| == |dict| == paramNum - 1
    && forall i :: 0 <= i < |fields| ==>
         fields[i].param == i + 1 && FieldValue(fields[i].column, values[i]) == dict[i]
  }

  /** One `if field is not None` step of a builder: when the field is supplied,
      the next assignment takes the next free placeholder, its value is appended
      to the values list, and the placeholder counter moves on. */
  method AppendIfSupplied(supplied: bool, fields: seq<Assignment>, values: seq<SqlValue>, paramNum: int,
                          ghost dict: seq<FieldValue>, column: Column, value: SqlValue)
    returns (fields': seq<Assignment>, values': seq<SqlValue>, paramNum': int)
    requires Building(fields, values, paramNum, dict)
    ensures Building(fields', values', paramNum', dict + Opt(supplied, column, value))
  {
    fields', values', paramNum' := fields, values, paramNum;
    if supplied {
      fields' := fields + [Assignment(column, paramNum)];
      values' := values + [value];
      paramNum' := paramNum + 1;
    } else {
      assert dict + [] == dict;
    }
  }

  /** A finished builder, with the id appended last, is numbered `$1..$k+1` and
      resolves to the fields it collected. */
  lemma FinishedBuilder(fields: seq<Assignment>, values: seq<SqlValue>, paramNum: int, dict: seq<FieldValue>, id: Id)
    requires Building(fields, values, paramNum, dict)
    ensures WellNumbered(UpdateQuery(fields, values + [Text(id)], paramNum))
    ensures Resolved(UpdateQuery(fields, values + [Text(id)], paramNum)) == dict
    ensures WhereValue(UpdateQuery(fields, values + [Text(id)], paramNum)) == Text(id)
  {
  }

  /** The SET list of `update_category`. An update with no field is refused with
      400 before anything is written; otherwise the placeholders resolve to
      exactly the document backend's `update_dict` and the id is bound last. */
  method BuildCategoryUpdate(id: Id, u: CategoryUpdate) returns (r: Result<UpdateQuery>)
    ensures r.Err? <==> CategoryUpdateDict(u) == []
    ensures r.Err? ==> r.error == HttpError(400, "No fields to update")
    ensures r.Ok? ==> WellNumbered(r.value) && Resolved(r.value) == CategoryUpdateDict(u)
    ensures r.Ok? ==> WhereValue(r.value) == Text(id)
  {
    var fields: seq<Assignment> := [];
    var values: seq<SqlValue> := [];
    var paramNum := 1;
    ghost var dict: seq<FieldValue> := [];
    fields, values, paramNum := AppendIfSupplied(u.name.Some?, fields, values, paramNum, dict, NameCol, Text(u.name.GetOr("")));
    dict := dict + Opt(u.name.Some?, NameCol, Text(u.name.GetOr("")));
    fields, values, paramNum := AppendIfSupplied(u.budgetLimit.Some?, fields, values, paramNum, dict, BudgetLimitCol, Number(u.budgetLimit.GetOr(0)));
    dict := dict + Opt(u.budgetLimit.Some?, BudgetLimitCol, Number(u.budgetLimit.GetOr(0)));
    fields, values, paramNum := AppendIfSupplied(u.color.Some?, fields, values, paramNum, dict, ColorCol, Text(u.color.GetOr("")));
    dict := dict + Opt(u.color.Some?, ColorCol, Text(u.color.GetOr("")));
    assert dict == CategoryUpdateDict(u);

    if fields == [] {
      return Err(HttpError(400, "No fields to update"));
    }
    FinishedBuilder(fields, values, paramNum, dict, id);
    values := values + [Text(id)];
    r := Ok(UpdateQuery(fields, values, paramNum));
  }

  /** The five `if field is not None` steps of `update_transaction`, from an
      empty SET list: they collect exactly the document backend's `update_dict`. */
  method CollectTransactionFields(u: TransactionUpdate)
    returns (fields: seq<Assignment>, values: seq<SqlValue>, paramNum: int)
    ensures Building(fields, values, paramNum, TransactionUpdateDict(u))
  {
    ghost var a := Opt(u.txType.Some?, TypeCol, Kind(u.txType.GetOr(Income)));
    ghost var b := Opt(u.amount.Some?, AmountCol, Number(u.amount.GetOr(0)));
    ghost var c := Opt(u.categoryId.Some?, CategoryIdCol, Text(u.categoryId.GetOr("")));
    ghost var d := Opt(u.description.Some?, DescriptionCol, Text(u.description.GetOr("")));
    ghost var e := Opt(u.date.Some?, DateCol, Day(u.date.GetOr(Date(0, 0, 0))));
    fields, values, paramNum := AppendIfSupplied(u.txType.Some?, [], [], 1, [], TypeCol, Kind(u.txType.GetOr(Income)));
    assert [] + a == a;
    fields, values, paramNum := AppendIfSupplied(u.amount.Some?, fields, values, paramNum, a, AmountCol, Number(u.amount.GetOr(0)));
    fields, values, paramNum := AppendIfSupplied(u.categoryId.Some?, fields, values, paramNum, a + b, CategoryIdCol, Text(u.categoryId.GetOr("")));
    fields, values, paramNum := AppendIfSupplied(u.description.Some?, fields, values, paramNum, a + b + c, DescriptionCol, Text(u.description.GetOr("")));
    fields, values, paramNum := AppendIfSupplied(u.date.Some?, fields, values, paramNum, a + b + c + d, DateCol, Day(u.date.GetOr(Date(0, 0, 0))));
    assert a + b + c + d + e == TransactionUpdateDict(u);
  }

  /** The SET list of `update_transaction`, numbered the same way. */
  method BuildTransactionUpdate(id: Id, u: TransactionUpdate) returns (r: Result<UpdateQuery>)
    ensures r.Err? <==> TransactionUpdateDict(u) == []
    ensures r.Err? ==> r.error == HttpError(400, "No fields to update")
    ensures r.Ok? ==> WellNumbered(r.value) && Resolved(r.value) == TransactionUpdateDict(u)
    ensures r.Ok? ==> WhereValue(r.value) == Text(id)
  {
    var fields, values, paramNum := CollectTransactionFields(u);
    if fields == [] {
      return Err(HttpError(400, "No fields to update"));
    }
    FinishedBuilder(fields, values, paramNum, TransactionUpdateDict(u), id);
    values := values + [Text(id)];
    r := Ok(UpdateQuery(fields, values, paramNum));
  }

  /** Running a SET list on a row, one `column = $p` after another: each writes
      the value bound to `$p` into its column; a placeholder with no bound value
      writes nothing. */
  function ExecCategoryAssignments(c: Category, assignments: seq<Assignment>, values: seq<SqlValue>): Category
    decreases |assignments|
  {
    if assignments == [] then c
    else
      var a := assignments[0];
      var c' := if 1 <= a.param <= |values| then SetCategoryField(c, FieldValue(a.column, values[a.param - 1])) else c;
      ExecCategoryAssignments(c', assignments[1..], values)
  }

  function ExecTransactionAssignments(t: Transaction, assignments: seq<Assignment>, values: seq<SqlValue>): Transaction
    decreases |assignments|
  {
    if assignments == [] then t
    else
      var a := assignments[0];
      var t' := if 1 <= a.param <= |values| then SetTransactionField(t, FieldValue(a.column, values[a.param - 1])) else t;
      ExecTransactionAssignments(t', assignments[1..], values)
  }

  /** Running the SET list from its k-th assignment on writes the resolved
      fields from the k-th on. */
  lemma {:induction false} ExecCategorySuffix(c: Category, q: UpdateQuery, k: nat)
    requires WellNumbered(q) && k <= |q.assignments|
    ensures ExecCategoryAssignments(c, q.assignments[k..], q.values) == SetCategoryFields(c, Resolved(q)[k..])
    decreases |q.assignments| - k
  {
    if k < |q.assignments| {
      var rest := q.assignments[k..];
      assert rest[0] == q.assignments[k] && rest[1..] == q.assignments[k + 1..];
      assert Resolved(q)[k..][0] == Resolved(q)[k] && Resolved(q)[k..][1..] == Resolved(q)[k + 1..];
      ExecCategorySuffix(SetCategoryField(c, Resolved(q)[k]), q, k + 1);
    }
  }

  lemma {:induction false} ExecTransactionSuffix(t: Transaction, q: UpdateQuery, k: nat)
    requires WellNumbered(q) && k <= |q.assignments|
    ensures ExecTransactionAssignments(t, q.assignments[k..], q.values) == SetTransactionFields(t, Resolved(q)[k..])
    decreases |q.assignments| - k
  {
    if k < |q.assignments| {
      var rest := q.assignments[k..];
      assert rest[0] == q.assignments[k] && rest[1..] == q.assignments[k + 1..];
      assert Resolved(q)[k..][0] == Resolved(q)[k] && Resolved(q)[k..][1..] == Resolved(q)[k + 1..];
      ExecTransactionSuffix(SetTransactionField(t, Resolved(q)[k]), q, k + 1);
    }
  }

  /** Running a well-numbered `UPDATE categories` whose placeholders resolve to
      `update_dict` on the matching row gives what `$set` gives in the document
      backend. */
  lemma CategoryStatementMatchesSet(q: UpdateQuery, u: CategoryUpdate, c: Category)
    requires WellNumbered(q) && Resolved(q) == CategoryUpdateDict(u)
    ensures ExecCategoryAssignments(c, q.assignments, q.values) == ApplyCategoryUpdate(c, u)
  {
    ExecCategorySuffix(c, q, 0);
    assert q.assignments[0..] == q.assignments && Resolved(q)[0..] == Resolved(q);
  }

  /** The same for `UPDATE transactions`. */
  lemma TransactionStatementMatchesSet(q: UpdateQuery, u: TransactionUpdate, t: Transaction)
    requires WellNumbered(q) && Resolved(q) == TransactionUpdateDict(u)
    ensures ExecTransactionAssignments(t, q.assignments, q.values) == ApplyTransactionUpdate(t, u)
  {
    ExecTransactionSuffix(t, q, 0);
    assert q.assignments[0..] == q.assignments && Resolved(q)[0..] == Resolved(q);
  }

  /** Supplying the same fields again changes nothing more. */
  lemma CategoryUpdateIdempotent(c: Category, u: CategoryUpdate)
    ensures ApplyCategoryUpdate(ApplyCategoryUpdate(c, u), u) == ApplyCategoryUpdate(c, u)
  {
  }

  lemma TransactionUpdateIdempotent(t: Transaction, u: TransactionUpdate)
    ensures ApplyTransactionUpdate(ApplyTransactionUpdate(t, u), u) == ApplyTransactionUpdate(t, u)
  {
  }
}
