/** The budget's records, with the fields the string methods, the SQLite driver and the
    import tool read and write. The enumeration constants are not among the program's
    files: each enumeration is a datatype whose last constructor carries any value
    outside the named ones, and its first constructor is the zero value. */
module Model {
  import opened Wrappers
  import opened BCDate

  /** Primary keys. */
  type PKEY = int

  datatype AccountClass = Checking | Savings | Investment | Loan | CreditCard | UnknownClass(code: int)

  datatype TransactionType = Normal | Income | Transfer | Adjust | UnknownType(code: int)

  datatype GoalType = NoGoal | Recurring | Target | RecurringUntilTarget | UnknownGoal(code: int)

  datatype Account = Account(
    id: PKEY,
    hidden: bool,
    offbudget: bool,
    debt: bool,
    institution: string,
    name: string,
    accountClass: AccountClass)

  datatype EnvelopeGroup = EnvelopeGroup(id: PKEY, name: string, sort: int)

  /** debtAccount is a nullable 32-bit column: None when it is NULL. */
  datatype Envelope = Envelope(
    id: PKEY,
    groupID: PKEY,
    hidden: bool,
    debtAccount: Option<int>,
    name: string,
    notes: string,
    goal: GoalType,
    goalAmt: int,
    goalTgt: int,
    sort: int)

  /** envelopeID is a nullable 32-bit column: None when the transaction is untagged. */
  datatype AccountTransaction = AccountTransaction(
    id: PKEY,
    accountID: PKEY,
    typ: TransactionType,
    envelopeID: Option<int>,
    postDate: BCDate,
    amount: int,
    cleared: bool,
    memo: string)

  datatype EnvelopeTransaction = EnvelopeTransaction(
    id: PKEY,
    envelopeID: PKEY,
    postDate: BCDate,
    amount: int)

  /** A row of the account checkpoint table a_chk. */
  datatype AccountSummary = AccountSummary(
    accountID: PKEY,
    month: BCDate,
    bal: int,
    inflow: int,
    outflow: int,
    cleared: int)

  /** A row of the envelope checkpoint table e_chk. */
  datatype EnvelopeSummary = EnvelopeSummary(
    envelopeID: PKEY,
    month: BCDate,
    bal: int,
    inflow: int,
    outflow: int)

  datatype Summary = Summary(float: int, income: int, expenses: int, gain: int, bank: int)
}
