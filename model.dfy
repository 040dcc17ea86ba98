/** The records the two backends store and exchange. Amounts and budget limits
    are integers in minor currency units. */
module Model {
  import opened Wrappers
  import opened Period

  type Id = string

  /** `TransactionType`: the only two kinds, used for categories and transactions. */
  datatype TxType = Income | Expense

  /** A stored category. `budgetLimit` and `color` are optional because a stored
      document may lack them; categories written through the API always carry both. */
  datatype Category = Category(
    id: Id,
    name: string,
    catType: TxType,
    budgetLimit: Option<int>,
    color: Option<string>,
    createdAt: string)

  /** `CategoryCreate`, with the defaults `budget_limit = 0` and `color = "#3D405B"`
      already applied by the request parser. */
  datatype CategoryInput = CategoryInput(name: string, catType: TxType, budgetLimit: int, color: string)

  /** `CategoryUpdate`: every field optional; the type is not among them. */
  datatype CategoryUpdate = CategoryUpdate(name: Option<string>, budgetLimit: Option<int>, color: Option<string>)

  datatype Transaction = Transaction(
    id: Id,
    txType: TxType,
    amount: int,
    categoryId: Id,
    description: string,
    date: Date,
    createdAt: string)

  /** `TransactionCreate`; `description` defaults to the empty string. */
  datatype TransactionInput = TransactionInput(txType: TxType, amount: int, categoryId: Id, description: string, date: Date)

  /** `TransactionUpdate`: every field optional. */
  datatype TransactionUpdate = TransactionUpdate(
    txType: Option<TxType>,
    amount: Option<int>,
    categoryId: Option<Id>,
    description: Option<string>,
    date: Option<Date>)

  const DefaultColor: string := "#3D405B"

  function NewCategory(input: CategoryInput, id: Id, createdAt: string): (c: Category)
    ensures c.id == id && c.name == input.name && c.catType == input.catType
    ensures c.budgetLimit == Some(input.budgetLimit) && c.color == Some(input.color)
  {
    Category(id, input.name, input.catType, Some(input.budgetLimit), Some(input.color), createdAt)
  }

  function NewTransaction(input: TransactionInput, id: Id, createdAt: string): (t: Transaction)
    ensures t.id == id && t.txType == input.txType && t.amount == input.amount
    ensures t.categoryId == input.categoryId && t.description == input.description && t.date == input.date
  {
    Transaction(id, input.txType, input.amount, input.categoryId, input.description, input.date, createdAt)
  }

  /** The eleven categories the document-store backend seeds on first start. */
  const DefaultCategories: seq<CategoryInput> := [
    CategoryInput("Salary", Income, 0, "#2E5C42"),
    CategoryInput("Freelance", Income, 0, "#8FB339"),
    CategoryInput("Other Income", Income, 0, "#5C8A4E"),
    CategoryInput("Food & Dining", Expense, 50000, "#E07A5F"),
    CategoryInput("Rent", Expense, 150000, "#3D405B"),
    CategoryInput("Utilities", Expense, 20000, "#81B29A"),
    CategoryInput("Transportation", Expense, 30000, "#F2CC8F"),
    CategoryInput("Entertainment", Expense, 20000, "#6D597A"),
    CategoryInput("Shopping", Expense, 30000, "#B56576"),
    CategoryInput("Healthcare", Expense, 15000, "#355070"),
    CategoryInput("Other Expenses", Expense, 20000, "#EAAC8B")
  ]
}
