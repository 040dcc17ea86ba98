# Budget planner bookkeeping core, in Dafny

This project models the bookkeeping logic of the budget planner API. The API has two
interchangeable backends: a relational one (asyncpg, `backend/server_postgresql.py`)
and a document-store one (Motor/MongoDB, `backend/server_mongodb_backup.py`). The model
covers:

- **Calendar periods** (module `Period`). A `(month, year)` query selects the half-open
  range `[year-month-01, first of the next month)`. December rolls over to January 1st
  of the next year.
- **Reference sums over transactions** (module `Ledger`): the rows of a period or a
  year, per-type sums, per-category sums, the ids of the categories in order of first
  appearance, and the twelve monthly sums of a year. Lemmas relate these sums to each
  other.
- **The three summary endpoints** (module `Summary`): the monthly summary with its
  category breakdown, the yearly summary and the budget status. Each loop of the
  handlers is a method proved against the `Ledger` sums. The document backend's read
  caps are modelled as written: at most 1000 rows, 100 categories, or 100 expense
  categories.
- **`get_transactions`** (module `Query`): optional period, type and category filters
  joined by AND, newest first, at most 1000 rows.
- **Partial updates** (module `Updates`):
  - the document backend's `update_dict` and its `$set`;
  - the relational backend's `UPDATE ... SET col = $1, ... WHERE id = $k+1` builder, as
    a list of `(column, placeholder)` assignments with a values list.

  The builder's placeholders resolve to exactly the `update_dict` of the other backend.
- **The store** (module `Store`): a class holding the two collections as maps from id
  to record, with the write endpoints as methods. The class invariant includes
  referential integrity: every transaction names an existing category. Every write
  keeps it.

Amounts and budget limits are integers in minor currency units. The budget percentage
is a `real`. Dates are `(year, month, day)` triples compared field by field. For
zero-padded ISO date strings this order is the same as both the SQL date comparison
and the string comparison of the document store.

Notes on the code that the model follows:

- `TransactionType` has only `income` and `expense` (`backend/server_postgresql.py:31-33`).
- The budget `percentage` is `min(p, 100)` and is not clamped below 0. A negative
  `spent`, possible because amounts are never checked to be positive, gives a negative
  percentage. `Summary.BudgetEntryFor` proves `percentage >= 0` only when `spent >= 0`.
- The relational `update_transaction` checks the new category before rejecting an
  empty update (`backend/server_postgresql.py:291-298` before `321-322`); the document
  one checks it after (`backend/server_mongodb_backup.py:194-201`). Both orders give
  the same outcome, because a supplied `category_id` makes the update non-empty.
  `Store.Store.UpdateTransactionPg` and `Store.Store.UpdateTransaction` model the two
  orders separately.
- The relational `UPDATE` is modelled as its SET list of `(column, placeholder)` pairs
  run one after another on the matching row (`Updates.ExecCategoryAssignments`,
  `Updates.ExecTransactionAssignments`), independently of the document backend's `$set`;
  lemmas show both write the same row.

## Model

| member | source | states |
|---|---|---|
| Period.PeriodEnd | backend/server_postgresql.py:355-359 | the end of a period is the first of the next month, and `(year+1)-01-01` for December |
| Period.NextMonth | backend/server_postgresql.py:419-423 | the month after `(m, y)` is a real month exactly one month later when months are counted from year 0: so `(m+1, y)` before December and `(1, y+1)` after it |
| Period.PeriodsAbut | backend/server_postgresql.py:355-359 | each month's range ends exactly where the next month's range starts |
| Period.PeriodIsHalfOpen | backend/server_mongodb_backup.py:223-227 | the start date belongs to the period and the end date does not |
| Period.InPeriodIff | backend/server_postgresql.py:365-368 | a well-formed date is in the period of a real month iff it carries that month and year |
| Period.PeriodsDisjoint | backend/server_postgresql.py:418-423 | the periods of two different real months never share a date |
| Model.NewCategory | backend/server_mongodb_backup.py:118-122 | a created category carries the input's name, type, limit and color under the new id |
| Model.NewTransaction | backend/server_mongodb_backup.py:181-189 | a created transaction carries the input's type, amount, category, description and date under the new id |
| Ledger.Take | backend/server_mongodb_backup.py:233 | `to_list(n)` returns a prefix of length `min(n, len)` |
| Ledger.KindsPartitionTotal | backend/server_postgresql.py:379-384 | every row adds to exactly one of income and expenses, so the two sums make the total |
| Ledger.UnmentionedIsZero | backend/server_postgresql.py:477 | a category that no row mentions totals 0 and spends 0 (the `.get(id, 0.0)` default) |
| Ledger.CategoryIdsSpec | backend/server_postgresql.py:386-389 | the keys of `category_totals` are distinct and are exactly the categories the rows mention |
| Ledger.SumOverAppend | backend/server_postgresql.py:386-389 | a new row adds its amount to the per-category sum over distinct ids iff its category is among them |
| Ledger.BreakdownSumsToTotal | backend/server_postgresql.py:386-401 | the per-category totals of the breakdown add up to the sum of all rows |
| Ledger.MonthsKindSumEmpty | backend/server_postgresql.py:418-436 | with no rows, every month sums to 0 |
| Ledger.MonthsKindSumAppend | backend/server_postgresql.py:418-436 | a new row changes the first n monthly sums by its amount iff it is of that type and dated in one of those months |
| Ledger.YearIsSumOfMonths | backend/server_postgresql.py:445-450 | for well-formed dates, the twelve monthly sums of a year make the sum of the rows dated in that year |
| Summary.CategoryMap | backend/server_postgresql.py:373 | `cat_map` holds every listed category under its own id, and nothing else |
| Summary.EntryFor | backend/server_postgresql.py:393-401 | a breakdown entry shows the category's name, type, limit and color, or "Unknown", expense, 0 and "#3D405B" when the category is missing |
| Summary.EntriesTotalIsSumOver | backend/server_postgresql.py:391-401 | entries carrying the per-category totals of some ids add up to the sum over those ids |
| Summary.AccumulateRow | backend/server_postgresql.py:379-389 | one row moves the loop state on: its amount goes to income or expenses by type and to its category, which starts at 0 and is appended to the key order on first sight |
| Summary.AccumulateTotals | backend/server_postgresql.py:375-389 | after the loop, income and expenses are the per-type sums, the key order is the first-appearance order of the categories, and each category's total is its sum |
| Summary.BuildBreakdown | backend/server_postgresql.py:391-401 | one entry per category id, in key order, each with that category's sum |
| Summary.Summarize | backend/server_postgresql.py:375-410 | the totals are the per-type sums and `balance` is their difference; the breakdown lists each mentioned category once, in first-appearance order, and adds up to income plus expenses |
| Summary.BreakdownCoversRows | backend/server_mongodb_backup.py:249-264 | a breakdown built from the category ids names exactly the mentioned categories, each once, and its totals make income plus expenses |
| Summary.MonthlySummaryPg | backend/server_postgresql.py:354-410 | the monthly summary of every row of the period against every category: `month`/`year` echoed, totals the per-type sums, `balance` their difference, one entry per distinct mentioned category in first-appearance order, adding up to income plus expenses |
| Summary.MonthlySummaryMongo | backend/server_mongodb_backup.py:222-273 | the same summary, with the same guarantees, over the first 1000 rows of the period and the first 100 categories |
| Summary.MonthEntriesAt | backend/server_postgresql.py:418-443 | the i-th month entry is the entry of month i+1: months in order 1..12 |
| Summary.MonthEntriesTotals | backend/server_postgresql.py:445-450 | summing the entries' income and expenses gives the sums of those months' rows |
| Summary.MonthlyData | backend/server_postgresql.py:418-443 | the loop builds the entries of months 1..12, each with that month's per-type sums and `balance = income - expenses` |
| Summary.YearlySummaryOf | backend/server_mongodb_backup.py:276-316 | exactly 12 entries for months 1..12; the year totals are the sums over the entries and, for well-formed dates, the sums of all rows of the year |
| Summary.EmptyYear | backend/server_postgresql.py:430-450 | a year without rows has twelve all-zero entries, and the totals summed over those entries are zero |
| Summary.BudgetEntryFor | backend/server_postgresql.py:478-489 | `remaining = max(0, limit - spent)` is never negative; `percentage` is at most 100, 0 when limit <= 0, 100 once the limit is reached, and `spent/limit*100` below it; `over_budget` iff limit > 0 and spent > limit |
| Summary.PercentageBounds | backend/server_postgresql.py:479 | for a positive limit, `spent/limit*100` times the limit is `spent*100`; it reaches 100 iff spent reaches the limit; it is not negative when spent is not |
| Summary.ExpenseCategories | backend/server_postgresql.py:463-466 | the selected categories are exactly the listed ones of type expense |
| Summary.BuildBudgetStatus | backend/server_postgresql.py:476-490 | one entry per expense category, in order, built from that category's expense sum in the period, which is 0 when no row mentions it |
| Summary.BudgetStatusPg | backend/server_postgresql.py:453-492 | one entry per expense category, each naming an expense category, with the period's expense spending |
| Summary.BudgetStatusMongo | backend/server_mongodb_backup.py:319-358 | the same over the first 100 expense categories; a missing limit counts as 0 and a missing color as "#3D405B" |
| Summary.OverspentCategory | backend/server_mongodb_backup.py:342-356 | a category limited to 100 that spent 150 has nothing remaining, a percentage of 100, and is over budget |
| Query.Filter | backend/server_mongodb_backup.py:163-175 | a row is kept iff it matches every given filter; the period applies only when month and year are both non-zero, the category only when non-empty |
| Query.Insert | backend/server_mongodb_backup.py:177 | inserting into a newest-first sequence keeps it newest-first and adds exactly the one row |
| Query.ConsSorted | backend/server_mongodb_backup.py:177 | a row no older than all rows of a newest-first sequence can lead it |
| Query.SortDesc | backend/server_postgresql.py:239 | `ORDER BY date DESC` gives a newest-first permutation of its input |
| Query.GetTransactions | backend/server_mongodb_backup.py:154-178 | at most 1000 rows, all matching; newest first; taken from the matches; no omitted match is newer than a returned row |
| Query.TopRowsAreNewest | backend/server_postgresql.py:239 | the first k rows of a newest-first sequence are no older than any row left out |
| Updates.CategoryUpdateDict | backend/server_mongodb_backup.py:125-127 | `update_dict` is empty iff no field is supplied, and holds only name, budget_limit and color, so the type can never change |
| Updates.TransactionUpdateDict | backend/server_mongodb_backup.py:193-195 | `update_dict` is empty iff no field is supplied, and holds only the five transaction fields |
| Updates.SetCategoryFieldsAppend | backend/server_mongodb_backup.py:130-134 | `$set` of two field lists writes the first list, then the second |
| Updates.SetTransactionFieldsAppend | backend/server_mongodb_backup.py:203-207 | `$set` of two field lists writes the first list, then the second |
| Updates.SetCategoryFieldsSnoc | backend/server_mongodb_backup.py:125-134 | `$set` of an optional last field writes it after the others, or nothing more when it is absent |
| Updates.SetTransactionFieldsSnoc | backend/server_mongodb_backup.py:193-207 | `$set` of an optional last field writes it after the others, or nothing more when it is absent |
| Updates.ApplyCategoryUpdate | backend/server_mongodb_backup.py:124-138 | each supplied field takes its new value; every other field, including id, type and creation time, is kept |
| Updates.ApplyTransactionUpdate | backend/server_mongodb_backup.py:192-211 | each supplied field takes its new value; id and creation time are kept |
| Updates.AppendIfSupplied | backend/server_postgresql.py:154-157 | a supplied field takes the next free placeholder, its value goes at that position of the values list, and the counter moves on; an absent field changes nothing |
| Updates.FinishedBuilder | backend/server_postgresql.py:170-171 | binding the id last gives placeholders `$1..$k` on the SET list and `$k+1` on the WHERE clause, which resolves to the id |
| Updates.BuildCategoryUpdate | backend/server_postgresql.py:150-171 | rejected with 400 "No fields to update" iff no field is supplied; otherwise `$1..$k` number the supplied fields in order, resolve to exactly `update_dict`, and the id is bound to `$k+1` |
| Updates.CollectTransactionFields | backend/server_postgresql.py:300-319 | the five `is not None` steps collect exactly `update_dict`, one placeholder each, in field order |
| Updates.BuildTransactionUpdate | backend/server_postgresql.py:300-325 | rejected with 400 iff no field is supplied; otherwise the placeholders resolve to exactly `update_dict` and the id is bound last |
| Updates.ExecCategorySuffix | backend/server_postgresql.py:171-174 | running the SET list of a well-numbered UPDATE from its k-th assignment on, looking each placeholder up in the values list, writes the resolved fields from the k-th on |
| Updates.ExecTransactionSuffix | backend/server_postgresql.py:323-327 | the same for the SET list of `UPDATE transactions` |
| Updates.CategoryStatementMatchesSet | backend/server_postgresql.py:171-174 | running a well-numbered `UPDATE categories` whose placeholders resolve to `update_dict` on the row gives exactly what `$set` gives in the document backend |
| Updates.TransactionStatementMatchesSet | backend/server_postgresql.py:323-327 | running a well-numbered `UPDATE transactions` whose placeholders resolve to `update_dict` on the row gives exactly what `$set` gives in the document backend |
| Updates.CategoryUpdateIdempotent | backend/server_mongodb_backup.py:129-133 | applying the same category update twice is the same as applying it once |
| Updates.TransactionUpdateIdempotent | backend/server_mongodb_backup.py:203-207 | applying the same transaction update twice is the same as applying it once |
| Store.Store.SeedDefaultCategories | backend/server_mongodb_backup.py:97-104 | the eleven defaults are inserted only into an empty collection, each under its own id; a non-empty collection, and hence a second run, is left unchanged |
| Store.Store.InsertEach | backend/server_mongodb_backup.py:101-103 | the k-th input is inserted under the k-th id and nothing else is written |
| Store.Store.CreateCategory | backend/server_postgresql.py:131-145 | the new category is added under its fresh id; transactions are unchanged |
| Store.Store.UpdateCategory | backend/server_mongodb_backup.py:124-138 | an empty update gives 400, then an unknown id gives 404, and neither writes anything; otherwise only the supplied fields of that category change |
| Store.Store.UpdateCategoryPg | backend/server_postgresql.py:148-184 | the same outcomes, through the numbered UPDATE statement |
| Store.Store.DeleteCategory | backend/server_postgresql.py:187-204 | refused with 400 while any transaction references the category, then 404 for an unknown id; a failed delete changes nothing; a successful one removes only that category and keeps referential integrity |
| Store.Store.CreateTransaction | backend/server_postgresql.py:258-281 | an unknown category gives 400 and inserts nothing; otherwise the new transaction is added and categories are unchanged |
| Store.Store.UpdateTransaction | backend/server_mongodb_backup.py:192-211 | an empty update gives 400, then an unknown new category gives 400, then an unknown id gives 404, none of them writing anything; otherwise only the supplied fields change |
| Store.Store.UpdateTransactionPg | backend/server_postgresql.py:284-338 | the unknown-category check comes first, then the empty-update 400 and the 404; the outcomes otherwise match the document backend |
| Store.Store.DeleteTransaction | backend/server_postgresql.py:341-350 | an unknown id gives 404 and changes nothing; otherwise only that transaction is removed |

## Left out

- Database I/O, the connection pool and client, SQL text and Mongo query execution. The two
  collections are in-memory maps. Each query is modelled by the rows it selects.
- uuid and `created_at` generation (`backend/server_mongodb_backup.py:40-43`) and the
  identifier the database assigns on insert. These are parameters of the creating methods.
- Floating-point amounts and their rounding. Amounts and limits are integers in minor units,
  so the default limits are scaled by 100.
- Races between the existence or count checks and the writes that follow them. Each method
  runs atomically.
- Routing, CORS, logging, environment loading, startup and shutdown hooks, the health check,
  `api/index.py` (the deployment wrapper) and `backend_test.py` (an HTTP client).
- `get_categories` on both backends (a list read, ordered by name in the relational one).
- The rendering of dates as strings. The model compares date triples. It does not cover
  malformed date strings, years of fewer than four digits, or months outside 1..12 whose
  rendered bounds (`"{month:02d}"`) would compare differently as strings, nor the
  database error such bounds raise in the relational backend.
- The group-count caps of the document backend's aggregations: `to_list(10)` on the
  per-type groups of a month and `to_list(100)` on the per-category spending groups.
  They only matter with more than two types or more than 100 spending categories, and
  the order in which groups are returned is unspecified.
- Summary.YearlySummaryOf: the per-type `GROUP BY` of each month is modelled as the two
  per-type sums, and the year totals equal the sum over the year's rows only under the
  stated well-formed-dates condition.
- Query.GetTransactions: the model's sort fixes one order for rows of the same date,
  whereas the databases leave that order unspecified. Its contract states only the
  newest-first and top-k properties, which hold for any tie order.
- Store.Store.SeedDefaultCategories: it requires distinct fresh ids, because uuid
  collisions are not modelled.
- Summary.MonthlySummaryPg, Summary.BudgetStatusPg: they run on the same categories as
  the document backend, whose limit and color may be missing, and show 0 and `#3D405B`
  for them. The relational source would fail on a NULL `budget_limit` (`float(None)`)
  and return a NULL `color` as null. The relational endpoints never write NULL there,
  because the input model defaults both fields.
