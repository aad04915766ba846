/**
 * The Budget document and its schema validation (backend/models/Budget.js).
 * `createdAt` defaults to a clock read and is not modelled.
 */
module BudgetSchema {
  import opened Common

  /** A stored Budget document; `id` is its `_id`. */
  datatype Budget = Budget(id: DocId, userId: UserId, amount: int, startDate: int, endDate: int)

  /** The fields handed to the schema when a Budget is saved; a missing field is `None`. */
  datatype BudgetDoc = BudgetDoc(userId: Option<UserId>, amount: Option<int>, startDate: Option<int>, endDate: Option<int>)

  /** One failed schema rule, named after the path it is attached to. */
  datatype Violation =
    | UserIdRequired
    | AmountRequired
    | AmountBelowMin
    | StartDateRequired
    | EndDateRequired
    | EndDateNotAfterStart

  /** The schema's rules on the values of a budget: `min: 0` on amount, end strictly after start. */
  predicate ValidTerms(amount: int, startDate: int, endDate: int) {
    amount >= 0 && endDate > startDate
  }

  /** The record invariant every stored Budget satisfies. */
  predicate Valid(b: Budget) {
    ValidTerms(b.amount, b.startDate, b.endDate)
  }

  /** The document a complete Budget record is saved as. */
  function DocOf(b: Budget): BudgetDoc {
    BudgetDoc(Some(b.userId), Some(b.amount), Some(b.startDate), Some(b.endDate))
  }

  /**
   * The rules a document breaks. Only `required` looks at a missing value; `min` and the
   * end-date validator run on present values, and the validator compares with the start date,
   * so it fails when the start date is missing (a comparison with `undefined` is false).
   */
  function Violations(d: BudgetDoc): (r: set<Violation>)
    ensures UserIdRequired in r <==> d.userId.None?
    ensures AmountRequired in r <==> d.amount.None?
    ensures AmountBelowMin in r <==> d.amount.Some? && d.amount.value < 0
    ensures StartDateRequired in r <==> d.startDate.None?
    ensures EndDateRequired in r <==> d.endDate.None?
    ensures EndDateNotAfterStart in r <==>
              d.endDate.Some? && (d.startDate.None? || d.endDate.value <= d.startDate.value)
  {
    (if d.userId.None? then {UserIdRequired} else {})
    + (if d.amount.None? then {AmountRequired}
       else if d.amount.value < 0 then {AmountBelowMin} else {})
    + (if d.startDate.None? then {StartDateRequired} else {})
    + (if d.endDate.None? then {EndDateRequired}
       else if d.startDate.None? || d.endDate.value <= d.startDate.value then {EndDateNotAfterStart}
       else {})
  }

  /** A document is accepted exactly when every field is present and the values are valid. */
  lemma AcceptedIffComplete(d: BudgetDoc)
    ensures Violations(d) == {} <==>
              d.userId.Some? && d.amount.Some? && d.startDate.Some? && d.endDate.Some?
              && ValidTerms(d.amount.value, d.startDate.value, d.endDate.value)
  {
    if d.userId.None? { assert UserIdRequired in Violations(d); }
    else if d.amount.None? { assert AmountRequired in Violations(d); }
    else if d.startDate.None? { assert StartDateRequired in Violations(d); }
    else if d.endDate.None? { assert EndDateRequired in Violations(d); }
    else if d.amount.value < 0 { assert AmountBelowMin in Violations(d); }
    else if d.endDate.value <= d.startDate.value { assert EndDateNotAfterStart in Violations(d); }
  }

  /** Saving a complete record succeeds exactly when it satisfies the record invariant. */
  lemma SaveAcceptsIffValid(b: Budget)
    ensures Violations(DocOf(b)) == {} <==> Valid(b)
  {
    AcceptedIffComplete(DocOf(b));
  }
}
