/**
  The category and transaction collections of both backends, held in memory as
  two maps from id to record, with the write endpoints as methods. The store
  invariant includes referential integrity: every transaction names a category
  that exists. Creation, the category check on transaction writes and the
  dependents check on category deletion are what keep it.
 */
module Store {
  import opened Wrappers
  import opened Period
  import opened Model
  import opened Updates

  const NoFields := HttpError(400, "No fields to update")
  const UnknownCategory := HttpError(400, "Category not found")
  const HasTransactions := HttpError(400, "Cannot delete category with existing transactions")
  const CategoryNotFound := HttpError(404, "Category not found")
  const TransactionNotFound := HttpError(404, "Transaction not found")

  class Store {
    var categories: map<Id, Category>
    var transactions: map<Id, Transaction>

    ghost predicate Valid()
      reads this
    {
      && (forall id :: id in categories ==> categories[id].id == id)
      && (forall id :: id in transactions ==> transactions[id].id == id)
      && (forall id :: id in transactions ==> transactions[id].categoryId in categories)
    }

    /** Some transaction is filed under category `cid`. */
    ghost predicate HasDependents(cid: Id)
      reads this
    {
      exists id :: id in transactions && transactions[id].categoryId == cid
    }

    constructor ()
      ensures Valid() && categories == map[] && transactions == map[]
    {
      categories := map[];
      transactions := map[];
    }

    /**
      `init_default_categories`: when the category collection is empty, insert
      the eleven defaults, the k-th under `ids[k]`, created at `times[k]`;
      otherwise insert nothing. Running it a second time therefore changes nothing.
     */
    method SeedDefaultCategories(ids: seq<Id>, times: seq<string>)
      requires Valid()
      requires |ids| == |times| == |DefaultCategories|
      requires forall i, j :: 0 <= i < j < |ids| ==> ids[i] != ids[j]
      modifies this
      ensures Valid() && transactions == old(transactions)
      ensures |old(categories)| > 0 ==> categories == old(categories)
      ensures |old(categories)| == 0 ==>
        && categories.Keys == (set k | 0 <= k < |ids| :: ids[k])
        && forall k :: 0 <= k < |ids| ==> categories[ids[k]] == NewCategory(DefaultCategories[k], ids[k], times[k])
      ensures |categories| > 0
    {
      if |categories| == 0 {
        InsertEach(DefaultCategories, ids, times);
        assert ids[0] in categories;
      }
    }

    /** The seeding loop, one `insert_one` per default into an empty collection:
        the k-th input under `ids[k]`. */
    method InsertEach(inputs: seq<CategoryInput>, ids: seq<Id>, times: seq<string>)
      requires Valid() && categories == map[]
      requires |ids| == |times| == |inputs|
      requires forall i, j :: 0 <= i < j < |ids| ==> ids[i] != ids[j]
      modifies this
      ensures Valid() && transactions == old(transactions)
      ensures categories.Keys == (set k | 0 <= k < |ids| :: ids[k])
      ensures forall k :: 0 <= k < |ids| ==> categories[ids[k]] == NewCategory(inputs[k], ids[k], times[k])
    {
      var i := 0;
      while i < |inputs|
        invariant 0 <= i <= |inputs|
        invariant transactions == old(transactions)
        invariant categories.Keys == (set k | 0 <= k < i :: ids[k])
        invariant forall k :: 0 <= k < i ==> categories[ids[k]] == NewCategory(inputs[k], ids[k], times[k])
      {
        categories := categories[ids[i] := NewCategory(inputs[i], ids[i], times[i])];
        i := i + 1;
      }
    }

    /** `create_category`: a new category under the fresh id `id`. */
    method CreateCategory(input: CategoryInput, id: Id, createdAt: string) returns (c: Category)
      requires Valid() && id !in categories
      modifies this
      ensures Valid() && transactions == old(transactions)
      ensures c == NewCategory(input, id, createdAt)
      ensures categories == old(categories)[id := c]
    {
      c := NewCategory(input, id, createdAt);
      categories := categories[id := c];
    }

    /**
      `update_category` of the document backend: an update with no field fails
      with 400, an unknown id with 404, and either failure leaves the store as
      it was; otherwise only the supplied fields change.
     */
    method UpdateCategory(id: Id, u: CategoryUpdate) returns (r: Result<Category>)
      requires Valid()
      modifies this
      ensures Valid() && transactions == old(transactions)
      ensures CategoryUpdateDict(u) == [] ==> r == Err(NoFields)
      ensures CategoryUpdateDict(u) != [] && id !in old(categories) ==> r == Err(CategoryNotFound)
      ensures CategoryUpdateDict(u) != [] && id in old(categories) ==>
        r == Ok(ApplyCategoryUpdate(old(categories)[id], u))
      ensures r.Err? ==> categories == old(categories)
      ensures r.Ok? ==> categories == old(categories)[id := r.value]
    {
      var updateDict := CategoryUpdateDict(u);
      if updateDict == [] {
        return Err(NoFields);
      }
      if id !in categories {
        return Err(CategoryNotFound);
      }
      var c := SetCategoryFields(categories[id], updateDict);
      assert c == ApplyCategoryUpdate(categories[id], u);
      categories := categories[id := c];
      r := Ok(c);
    }

    /**
      `update_category` of the relational backend: build the numbered `UPDATE`,
      then run it on the row whose id is bound to the last placeholder. The
      outcome is the same as the document backend's.
     */
    method UpdateCategoryPg(id: Id, u: CategoryUpdate) returns (r: Result<Category>)
      requires Valid()
      modifies this
      ensures Valid() && transactions == old(transactions)
      ensures CategoryUpdateDict(u) == [] ==> r == Err(NoFields)
      ensures CategoryUpdateDict(u) != [] && id !in old(categories) ==> r == Err(CategoryNotFound)
      ensures CategoryUpdateDict(u) != [] && id in old(categories) ==>
        r == Ok(ApplyCategoryUpdate(old(categories)[id], u))
      ensures r.Err? ==> categories == old(categories)
      ensures r.Ok? ==> categories == old(categories)[id := r.value]
    {
      var built := BuildCategoryUpdate(id, u);
      if built.Err? {
        return Err(built.error);
      }
      var q := built.value;
      var key := WhereValue(q).text;
      assert key == id;
      if key !in categories {
        return Err(CategoryNotFound);
      }
      var c := ExecCategoryAssignments(categories[key], q.assignments, q.values);
      CategoryStatementMatchesSet(q, u, categories[key]);
      categories := categories[key := c];
      r := Ok(c);
    }

    /**
      `delete_category`: refused with 400 while any transaction is filed under
      the category, 404 when there is no such category; a failed delete changes
      nothing.
     */
    method DeleteCategory(id: Id) returns (r: Result<()>)
      requires Valid()
      modifies this
      ensures Valid() && transactions == old(transactions)
      ensures old(HasDependents(id)) ==> r == Err(HasTransactions)
      ensures !old(HasDependents(id)) && id !in old(categories) ==> r == Err(CategoryNotFound)
      ensures !old(HasDependents(id)) && id in old(categories) ==> r == Ok(())
      ensures r.Err? ==> categories == old(categories)
      ensures r.Ok? ==> categories == old(categories) - {id}
    {
      var dependents := set tid | tid in transactions && transactions[tid].categoryId == id;
      if HasDependents(id) {
        var tid :| tid in transactions && transactions[tid].categoryId == id;
        assert tid in dependents;
      }
      if |dependents| > 0 {
        return Err(HasTransactions);
      }
      if id !in categories {
        return Err(CategoryNotFound);
      }
      categories := categories - {id};
      r := Ok(());
    }

    /** `create_transaction`: refused with 400 when the category does not exist. */
    method CreateTransaction(input: TransactionInput, id: Id, createdAt: string) returns (r: Result<Transaction>)
      requires Valid() && id !in transactions
      modifies this
      ensures Valid() && categories == old(categories)
      ensures input.categoryId !in categories ==> r == Err(UnknownCategory) && transactions == old(transactions)
      ensures input.categoryId in categories ==>
        r == Ok(NewTransaction(input, id, createdAt)) && transactions == old(transactions)[id := r.value]
    {
      if input.categoryId !in categories {
        return Err(UnknownCategory);
      }
      var t := NewTransaction(input, id, createdAt);
      transactions := transactions[id := t];
      r := Ok(t);
    }

    /**
      `update_transaction` of the document backend: an update with no field
      fails with 400, then a new category that does not exist fails with 400,
      then an unknown id fails with 404; a failure changes nothing.
     */
    method UpdateTransaction(id: Id, u: TransactionUpdate) returns (r: Result<Transaction>)
      requires Valid()
      modifies this
      ensures Valid() && categories == old(categories)
      ensures TransactionUpdateDict(u) == [] ==> r == Err(NoFields)
      ensures TransactionUpdateDict(u) != [] && u.categoryId.Some? && u.categoryId.value !in categories ==>
        r == Err(UnknownCategory)
      ensures TransactionUpdateDict(u) != [] && (u.categoryId.Some? ==> u.categoryId.value in categories) ==>
        r == (if id in old(transactions) then Ok(ApplyTransactionUpdate(old(transactions)[id], u))
              else Err(TransactionNotFound))
      ensures r.Err? ==> transactions == old(transactions)
      ensures r.Ok? ==> transactions == old(transactions)[id := r.value]
    {
      var updateDict := TransactionUpdateDict(u);
      if updateDict == [] {
        return Err(NoFields);
      }
      if u.categoryId.Some? && u.categoryId.value !in categories {
        return Err(UnknownCategory);
      }
      if id !in transactions {
        return Err(TransactionNotFound);
      }
      var t := SetTransactionFields(transactions[id], updateDict);
      assert t == ApplyTransactionUpdate(transactions[id], u);
      transactions := transactions[id := t];
      r := Ok(t);
    }

    /**
      `update_transaction` of the relational backend: the new category is
      checked first, then the numbered `UPDATE` is built (400 when empty) and
      run on the row whose id is bound last (404 when there is none).
     */
    method UpdateTransactionPg(id: Id, u: TransactionUpdate) returns (r: Result<Transaction>)
      requires Valid()
      modifies this
      ensures Valid() && categories == old(categories)
      ensures u.categoryId.Some? && u.categoryId.value !in categories ==> r == Err(UnknownCategory)
      ensures (u.categoryId.Some? ==> u.categoryId.value in categories) && TransactionUpdateDict(u) == [] ==>
        r == Err(NoFields)
      ensures TransactionUpdateDict(u) != [] && (u.categoryId.Some? ==> u.categoryId.value in categories) ==>
        r == (if id in old(transactions) then Ok(ApplyTransactionUpdate(old(transactions)[id], u))
              else Err(TransactionNotFound))
      ensures r.Err? ==> transactions == old(transactions)
      ensures r.Ok? ==> transactions == old(transactions)[id := r.value]
    {
      if u.categoryId.Some? && u.categoryId.value !in categories {
        return Err(UnknownCategory);
      }
      var built := BuildTransactionUpdate(id, u);
      if built.Err? {
        return Err(built.error);
      }
      var q := built.value;
      var key := WhereValue(q).text;
      assert key == id;
      if key !in transactions {
        return Err(TransactionNotFound);
      }
      var t := ExecTransactionAssignments(transactions[key], q.assignments, q.values);
      TransactionStatementMatchesSet(q, u, transactions[key]);
      transactions := transactions[key := t];
      r := Ok(t);
    }

    /** `delete_transaction`: 404 when there is no such transaction. */
    method DeleteTransaction(id: Id) returns (r: Result<()>)
      requires Valid()
      modifies this
      ensures Valid() && categories == old(categories)
      ensures id !in old(transactions) ==> r == Err(TransactionNotFound) && transactions == old(transactions)
      ensures id in old(transactions) ==> r == Ok(()) && transactions == old(transactions) - {id}
    {
      if id !in transactions {
        return Err(TransactionNotFound);
      }
      transactions := transactions - {id};
      r := Ok(());
    }
  }
}
