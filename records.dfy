/**
 * The records the tracker stores: the three fixed users, expenses and
 * transfers. Identifiers that the JavaScript code compares as strings
 * become closed datatypes with one extra case for any other string, so that
 * the code paths taken for unrecognised values stay representable. A user
 * id outside the three known ones keeps its string, so two different
 * unknown ids stay different.
 */
module Records {
  import opened Common

  /** 'mariano', 'gabriela', 'juanmartin', or any other non-empty id string (no modelled path yields an empty one or one of the three known names). */
  datatype UserId = Mariano | Gabriela | JuanMartin | OtherUser(name: string)

  /** The `imputeTo` values: 'both', 'mariano', 'gabriela', or anything else. */
  datatype Impute = Both | OnlyMariano | OnlyGabriela | Unrecognised

  /** A calendar date; `month` is zero-based, as JavaScript's getMonth(). */
  datatype Date = Date(year: int, month: int, day: int)

  type RecordId = string
  type Timestamp = string

  /**
   * The fields a caller supplies for an expense. A missing `imputeTo` is
   * None; a missing `needsReimbursement` is false; a missing category is "".
   */
  datatype ExpenseData = ExpenseData(
    amount: real,
    description: string,
    category: string,
    paidBy: UserId,
    date: Date,
    imputeTo: Option<Impute>,
    needsReimbursement: bool,
    createdBy: UserId)

  /** A stored expense: the supplied fields plus the store's id and timestamps. */
  datatype Expense = Expense(id: RecordId, data: ExpenseData, createdAt: Timestamp, updatedAt: Timestamp)

  datatype TransferData = TransferData(from: UserId, to: UserId, amount: real, date: Date)

  /** A stored transfer: the supplied fields plus the store's id and creation time. */
  datatype Transfer = Transfer(id: RecordId, data: TransferData, createdAt: Timestamp)

  datatype Role = Parent | Collaborator

  datatype User = User(
    id: UserId,
    name: string,
    role: Role,
    pinHash: string,
    canEditAll: bool,
    canManageTransfers: bool)

  datatype Category = Category(id: string, name: string)

  /** The amount of an expense, as a function value for sums. */
  function ExpenseAmount(e: Expense): real
  {
    e.data.amount
  }

  /** Calendar year and month equality, as the month queries compare them. */
  predicate InMonth(d: Date, year: int, month: int)
  {
    d.year == year && d.month == month
  }
}
