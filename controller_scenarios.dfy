/**
 * Concrete request sequences against the store, showing what the handlers' contracts imply
 * for whole interactions.
 */
module ControllerScenarios {
  import opened Common
  import opened Documents
  import opened BudgetSchema
  import opened UserController

  /** A store whose only user, 7, has a budget of 200 over days 1..10 and no transactions. */
  method BudgetOnly() returns (store: Store)
    ensures fresh(store) && store.Valid()
    ensures store.users.Keys == {7} && store.users[7].budgets == [BudgetEntry(200, 1, 10)]
    ensures store.transactions == [] && store.nextId == 1
  {
    store := new Store(map[7 := Account("Asha", "asha@example.com")]);
    var budgetSet := store.SetBudget(7, Some(200), Some(1), Some(10));
  }

  /** The same store after spending 100 on day 2. */
  method OneSpend() returns (store: Store)
    ensures fresh(store) && store.Valid()
    ensures store.users.Keys == {7} && store.users[7].budgets == [BudgetEntry(200, 1, 10)]
    ensures store.transactions == [Transaction(1, 7, 2, "groceries", 100)] && store.nextId == 2
    ensures ControllerQueries.SpentInRange(store.transactions, 7, 1, 10) == 100
  {
    store := BudgetOnly();
    var t := store.AddTransaction(7, Some(2), Some("groceries"), Some(100));
    assert store.transactions == [] + [t.value];
    ControllerQueries.SpentAfterAppend([], t.value, 7, 1, 10);
  }

  /** The same store after spending 100 on day 2 and 50 on day 5. */
  method TwoSpends() returns (store: Store)
    ensures fresh(store) && store.Valid()
    ensures store.users.Keys == {7} && store.users[7].budgets == [BudgetEntry(200, 1, 10)]
    ensures store.nextId == 3
    ensures ControllerQueries.SpentInRange(store.transactions, 7, 1, 10) == 150
  {
    store := OneSpend();
    ghost var one := store.transactions;
    var t := store.AddTransaction(7, Some(5), Some("fuel"), Some(50));
    assert ControllerQueries.SpentInRange(store.transactions, 7, 1, 10) == 150 by {
      ControllerQueries.SpentAfterAppend(one, t.value, 7, 1, 10);
    }
  }

  /** With 100 on day 2 and 50 on day 5 against a budget of 200 over days 1..10, the spend of 150 is under control. */
  method SpendUnderBudget() returns (check: Result<BudgetCheck>)
    ensures check == Ok(BudgetCheck(UnderControl, 150, 200))
  {
    var store := TwoSpends();
    check := store.CheckBudget(7, Some(1), Some(10));
  }

  /** A further 100 on day 6 takes the spend to 250, over the budget of 200. */
  method SpendOverBudget() returns (check: Result<BudgetCheck>)
    ensures check == Ok(BudgetCheck(Exceeded, 250, 200))
  {
    var store := TwoSpends();
    ghost var two := store.transactions;
    var t3 := store.AddTransaction(7, Some(6), Some("dinner"), Some(100));
    ControllerQueries.SpentAfterAppend(two, t3.value, 7, 1, 10);
    check := store.CheckBudget(7, Some(1), Some(10));
  }

  /**
   * Setting 500 over days 1..31 and then 700 over days 15..45 updates the one stored Budget to
   * 700, but the embedded copy keeps 500 because its dates do not match the second request
   * exactly, and checkBudget reads the embedded copy.
   */
  method CopiesDiverge() returns (second: Result<SetBudgetReply>, stored: seq<Budget>, embedded: seq<BudgetEntry>, check: Result<BudgetCheck>)
    ensures second == Ok(BudgetUpdated(700))
    ensures stored == [Budget(0, 7, 700, 1, 31)]
    ensures embedded == [BudgetEntry(500, 1, 31)]
    ensures check == Ok(BudgetCheck(UnderControl, 0, 500))
  {
    var store := new Store(map[7 := Account("Asha", "asha@example.com")]);
    var first := store.SetBudget(7, Some(500), Some(1), Some(31));
    second := store.SetBudget(7, Some(700), Some(15), Some(45));
    stored := store.budgets;
    embedded := store.users[7].budgets;
    check := store.CheckBudget(7, Some(1), Some(31));
  }

  /** A zero amount is falsy, so setBudget rejects it and nothing is written. */
  method ZeroBudgetRejected() returns (r: Result<SetBudgetReply>, stored: seq<Budget>)
    ensures r == Err(BadRequest) && stored == []
  {
    var store := new Store(map[7 := Account("Asha", "asha@example.com")]);
    r := store.SetBudget(7, Some(0), Some(1), Some(10));
    stored := store.budgets;
  }
}
