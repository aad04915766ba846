/**
 * The Transaction document (backend/models/Transaction.js) and the User document as the
 * controller uses it: its list of transaction ids and its embedded budget copies.
 */
module Documents {
  import opened Common
  import BudgetSchema

  /** A stored Transaction; all four schema fields are required. */
  datatype Transaction = Transaction(id: DocId, userId: UserId, date: int, description: string, amount: int)

  /** An entry of `user.budgets`: a copy of a Budget's amount and dates. */
  datatype BudgetEntry = BudgetEntry(amount: int, startDate: int, endDate: int)

  /** A User document, without its password hash. */
  datatype User = User(
    name: string,
    email: string,
    profilePicture: Option<string>,
    transactions: seq<DocId>,
    budgets: seq<BudgetEntry>)

  /** The schema accepts a new transaction: every required field is present (a required string must not be empty). */
  predicate TransactionComplete(date: Option<int>, description: Option<string>, amount: Option<int>) {
    date.Some? && Given(description) && amount.Some?
  }

  /** Every embedded copy carries values the Budget schema accepts. */
  predicate EntriesValid(es: seq<BudgetEntry>) {
    forall k :: 0 <= k < |es| ==> BudgetSchema.ValidTerms(es[k].amount, es[k].startDate, es[k].endDate)
  }
}
