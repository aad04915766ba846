/**
 * The request handlers of backend/controllers/userController.js over an in-memory store.
 * The store holds the User documents by id, the Budget collection and the Transaction
 * collection, each collection in store order; `nextId` stands for the fresh `_id` a document
 * receives when it is first saved. The caller's identity is a plain parameter where the handler
 * reads `req.user.id`; updateTransaction and deleteTransaction take none, because their routes
 * carry no authentication and they check no ownership.
 */
module UserController {
  import opened Common
  import opened BudgetSchema
  import opened Documents
  import opened ControllerQueries

  /** The client and server error responses the handlers send. */
  datatype HttpError = BadRequest | NotFound | ServerError

  /** A handler's response: a success body or an error status. */
  datatype Result<T> = Ok(value: T) | Err(error: HttpError)

  /** The two success messages of setBudget, with the amount they echo. */
  datatype SetBudgetReply = BudgetUpdated(amount: int) | BudgetCreated(amount: int)

  /** The two messages of checkBudget: "under control" or "exceeded". */
  datatype Verdict = UnderControl | Exceeded

  /** The body of a successful checkBudget. */
  datatype BudgetCheck = BudgetCheck(verdict: Verdict, totalSpent: int, budget: int)

  /** The body of a successful updateProfile. */
  datatype Profile = Profile(name: string, email: string)

  /** The confirmation body of deleteTransaction. */
  datatype Deletion = TransactionDeleted

  /** A user account as it exists before any of these handlers runs. */
  datatype Account = Account(name: string, email: string)

  /** JavaScript truthiness of the budget amount in a request: present and not 0. */
  predicate Truthy(amount: Option<int>) {
    amount.Some? && amount.value != 0
  }

  /**
   * One field of an updateTransaction request: left out of the body (Mongoose drops it from the
   * update), sent as `""` or `null` (cast to `null`, which `required` rejects), or sent with a value.
   */
  datatype Edit<T> = Omitted | Emptied | Sent(value: T) {
    /** The field's value after the update, given its current value. */
    function Or(current: T): T {
      if Sent? then value else current
    }
  }

  /** An update that leaves a required Transaction field empty; a `""` description counts too. */
  predicate ClearsRequired(date: Edit<int>, description: Edit<string>, amount: Edit<int>) {
    date.Emptied? || description.Emptied? || description == Sent("") || amount.Emptied?
  }

  /** setBudget's two validation checks pass: every field is truthy and start is before end. */
  predicate BudgetRequestValid(amount: Option<int>, startDate: Option<int>, endDate: Option<int>) {
    Truthy(amount) && startDate.Some? && endDate.Some? && startDate.value < endDate.value
  }

  class Store {
    var users: map<UserId, User>
    var budgets: seq<Budget>
    var transactions: seq<Transaction>
    var nextId: nat

    /**
     * The store invariant: every Budget satisfies its schema and belongs to a known user, every
     * embedded copy carries values the schema accepts, every transaction belongs to a known user,
     * and identifiers are below `nextId` and distinct among transactions.
     */
    ghost predicate Valid()
      reads this
      ensures Valid() ==> forall i :: 0 <= i < |budgets| ==> Violations(DocOf(budgets[i])) == {}
    {
      && (forall i :: 0 <= i < |budgets| ==>
            BudgetSchema.Valid(budgets[i]) && budgets[i].userId in users && budgets[i].id < nextId)
      && (forall u :: u in users ==> EntriesValid(users[u].budgets))
      && (forall i :: 0 <= i < |transactions| ==>
            transactions[i].userId in users && transactions[i].id < nextId)
      && (forall i, j :: 0 <= i < j < |transactions| ==> transactions[i].id != transactions[j].id)
    }

    /** A store holding the given accounts, with no budgets and no transactions. */
    constructor (accounts: map<UserId, Account>)
      ensures Valid()
      ensures users == map u | u in accounts :: User(accounts[u].name, accounts[u].email, None, [], [])
      ensures budgets == [] && transactions == [] && nextId == 0
    {
      users := map u | u in accounts :: User(accounts[u].name, accounts[u].email, None, [], []);
      budgets := [];
      transactions := [];
      nextId := 0;
    }

    /**
     * setBudget: after validation, the first Budget of the caller overlapping the requested range
     * gets the new amount (the embedded copies change only where both dates match exactly);
     * without one, a new Budget and a new embedded copy are added. The schema is checked when
     * the Budget is saved, so a negative amount ends in a server error with nothing written.
     */
    method SetBudget(caller: UserId, amount: Option<int>, startDate: Option<int>, endDate: Option<int>)
      returns (r: Result<SetBudgetReply>)
      requires Valid()
      modifies this
      ensures Valid()
      ensures !BudgetRequestValid(amount, startDate, endDate) ==> r == Err(BadRequest) && unchanged(this)
      ensures BudgetRequestValid(amount, startDate, endDate) && caller !in old(users) ==>
                r == Err(NotFound) && unchanged(this)
      ensures BudgetRequestValid(amount, startDate, endDate) && caller in old(users) && amount.value < 0 ==>
                r == Err(ServerError) && unchanged(this)
      ensures BudgetRequestValid(amount, startDate, endDate) && caller in old(users) && amount.value > 0 ==>
                r.Ok? && r.value.amount == amount.value && transactions == old(transactions)
      // update path: only the amount of the first overlapping Budget changes
      ensures r.Ok? ==>
                var s, e, a := startDate.value, endDate.value, amount.value;
                var found := FirstOverlappingBudget(old(budgets), caller, s, e);
                var u := old(users)[caller];
                found.Some? ==>
                  && r == Ok(BudgetUpdated(a))
                  && budgets == old(budgets)[found.value := old(budgets)[found.value].(amount := a)]
                  && users == old(users)[caller := u.(budgets := UpdateExactPeriod(u.budgets, s, e, a))]
                  && nextId == old(nextId)
      // create path: exactly one Budget and one embedded copy are appended
      ensures r.Ok? ==>
                var s, e, a := startDate.value, endDate.value, amount.value;
                var found := FirstOverlappingBudget(old(budgets), caller, s, e);
                var u := old(users)[caller];
                found.None? ==>
                  && r == Ok(BudgetCreated(a))
                  && budgets == old(budgets) + [Budget(old(nextId), caller, a, s, e)]
                  && users == old(users)[caller := u.(budgets := u.budgets + [BudgetEntry(a, s, e)])]
                  && nextId == old(nextId) + 1
    {
      if !Truthy(amount) || startDate.None? || endDate.None? {
        return Err(BadRequest);
      }
      var a, s, e := amount.value, startDate.value, endDate.value;
      if s >= e {
        return Err(BadRequest);
      }
      if caller !in users {
        return Err(NotFound);
      }
      var u := users[caller];
      var found := FirstOverlappingBudget(budgets, caller, s, e);
      if found.Some? {
        var i := found.value;
        var updated := budgets[i].(amount := a);
        SaveAcceptsIffValid(updated);
        if Violations(DocOf(updated)) != {} {
          return Err(ServerError);
        }
        budgets := budgets[i := updated];
        UpdateExactPeriodKeepsValid(u.budgets, s, e, a);
        users := users[caller := u.(budgets := UpdateExactPeriod(u.budgets, s, e, a))];
        r := Ok(BudgetUpdated(updated.amount));
      } else {
        var created := Budget(nextId, caller, a, s, e);
        SaveAcceptsIffValid(created);
        if Violations(DocOf(created)) != {} {
          return Err(ServerError);
        }
        budgets := budgets + [created];
        users := users[caller := u.(budgets := u.budgets + [BudgetEntry(a, s, e)])];
        nextId := nextId + 1;
        r := Ok(BudgetCreated(created.amount));
      }
    }

    /**
     * checkBudget: the budget is the first embedded copy overlapping the range (never a default
     * of 0); the amount spent sums the caller's transactions dated inside the inclusive range,
     * and reaching the budget exactly still counts as under control.
     */
    method CheckBudget(caller: UserId, startDate: Option<int>, endDate: Option<int>)
      returns (r: Result<BudgetCheck>)
      ensures r == Err(BadRequest) <==> startDate.None? || endDate.None?
      ensures r == Err(NotFound) <==>
                startDate.Some? && endDate.Some? &&
                (caller !in users ||
                 forall k :: 0 <= k < |users[caller].budgets| ==>
                   !Overlaps(users[caller].budgets[k].startDate, users[caller].budgets[k].endDate, startDate.value, endDate.value))
      ensures r.Ok? ==>
                && startDate.Some? && endDate.Some? && caller in users
                && var es := users[caller].budgets;
                   var found := FirstOverlappingEntry(es, startDate.value, endDate.value);
                   found.Some? && r.value.budget == es[found.value].amount
      ensures r.Ok? ==> r.value.totalSpent == SpentInRange(transactions, caller, startDate.value, endDate.value)
      ensures r.Ok? ==> (r.value.verdict == UnderControl <==> r.value.totalSpent <= r.value.budget)
      ensures startDate.Some? && endDate.Some? && caller in users &&
                FirstOverlappingEntry(users[caller].budgets, startDate.value, endDate.value).Some? ==>
                r.Ok?
      ensures !r.Err? || !r.error.ServerError?
    {
      if startDate.None? || endDate.None? {
        return Err(BadRequest);
      }
      var s, e := startDate.value, endDate.value;
      if caller !in users {
        return Err(NotFound);
      }
      var found := FirstOverlappingEntry(users[caller].budgets, s, e);
      if found.None? {
        return Err(NotFound);
      }
      var budget := users[caller].budgets[found.value].amount;
      var spent := Total(OwnedInRange(transactions, caller, s, e));
      if spent <= budget {
        r := Ok(BudgetCheck(UnderControl, spent, budget));
      } else {
        r := Ok(BudgetCheck(Exceeded, spent, budget));
      }
    }

    /**
     * userTransaction: a new transaction tagged with the caller's id is saved and its id is
     * appended once to the caller's list; a missing required field fails the save.
     */
    method AddTransaction(caller: UserId, date: Option<int>, description: Option<string>, amount: Option<int>)
      returns (r: Result<Transaction>)
      requires Valid()
      modifies this
      ensures Valid()
      ensures caller !in old(users) ==> r == Err(NotFound) && unchanged(this)
      ensures caller in old(users) && !TransactionComplete(date, description, amount) ==>
                r == Err(ServerError) && unchanged(this)
      ensures caller in old(users) && TransactionComplete(date, description, amount) ==>
                && r == Ok(Transaction(old(nextId), caller, date.value, description.value, amount.value))
                && (forall t :: t in old(transactions) ==> t.id != r.value.id)
                && transactions == old(transactions) + [r.value]
                && users == old(users)[caller := old(users)[caller].(transactions := old(users)[caller].transactions + [r.value.id])]
                && budgets == old(budgets)
                && nextId == old(nextId) + 1
    {
      if caller !in users {
        return Err(NotFound);
      }
      if !TransactionComplete(date, description, amount) {
        return Err(ServerError);
      }
      var t := Transaction(nextId, caller, date.value, description.value, amount.value);
      transactions := transactions + [t];
      nextId := nextId + 1;
      var u := users[caller];
      users := users[caller := u.(transactions := u.transactions + [t.id])];
      r := Ok(t);
    }

    /** allTransaction: every transaction of the caller, in store order. */
    method AllTransactions(caller: UserId) returns (r: seq<Transaction>)
      ensures forall t :: t in r <==> t in transactions && t.userId == caller
      ensures r == OwnedBy(transactions, caller)
    {
      r := OwnedBy(transactions, caller);
    }

    /** dateTransaction: both bounds are required; the caller's transactions dated inside the inclusive range. */
    method DateTransactions(caller: UserId, start: Option<int>, end: Option<int>)
      returns (r: Result<seq<Transaction>>)
      ensures r.Err? <==> start.None? || end.None?
      ensures r.Err? ==> r.error == BadRequest
      ensures r.Ok? ==> forall t :: t in r.value <==>
                t in transactions && t.userId == caller && Within(t.date, start.value, end.value)
      ensures r.Ok? ==> r.value == OwnedInRange(transactions, caller, start.value, end.value)
    {
      if start.None? || end.None? {
        return Err(BadRequest);
      }
      r := Ok(OwnedInRange(transactions, caller, start.value, end.value));
    }

    /**
     * updateTransaction: the transaction with the given id gets the fields sent in the request.
     * The update validators run first, so a required field sent empty is a server error even for
     * an unknown id. No ownership is checked.
     */
    method UpdateTransaction(id: DocId, date: Edit<int>, description: Edit<string>, amount: Edit<int>)
      returns (r: Result<Transaction>)
      requires Valid()
      modifies this
      ensures Valid()
      ensures ClearsRequired(date, description, amount) ==> r == Err(ServerError) && unchanged(this)
      ensures !ClearsRequired(date, description, amount) && IndexOfTransaction(old(transactions), id).None? ==>
                r == Err(NotFound) && unchanged(this)
      ensures r.Ok? ==>
                && !ClearsRequired(date, description, amount)
                && var i := IndexOfTransaction(old(transactions), id);
                   var t := old(transactions)[i.value];
                   && i.Some?
                   && r.value == t.(date := date.Or(t.date), description := description.Or(t.description),
                                    amount := amount.Or(t.amount))
                   && transactions == old(transactions)[i.value := r.value]
      ensures r.Ok? ==> r.value.id == id && users == old(users) && budgets == old(budgets) && nextId == old(nextId)
      ensures r.Err? ==> unchanged(this)
      ensures !ClearsRequired(date, description, amount) && IndexOfTransaction(old(transactions), id).Some? ==> r.Ok?
    {
      if ClearsRequired(date, description, amount) {
        return Err(ServerError);
      }
      var i := IndexOfTransaction(transactions, id);
      if i.None? {
        return Err(NotFound);
      }
      var t := transactions[i.value];
      var updated := t.(date := date.Or(t.date), description := description.Or(t.description),
                        amount := amount.Or(t.amount));
      transactions := transactions[i.value := updated];
      r := Ok(updated);
    }

    /**
     * deleteTransaction: the transaction with the given id is removed from the collection; its id
     * stays in its owner's `transactions` list. No ownership is checked.
     */
    method DeleteTransaction(id: DocId) returns (r: Result<Deletion>)
      requires Valid()
      modifies this
      ensures Valid()
      ensures r.Err? <==> (forall t :: t in old(transactions) ==> t.id != id)
      ensures r.Err? ==> r.error == NotFound && unchanged(this)
      ensures r.Ok? ==>
                && var i := IndexOfTransaction(old(transactions), id).value;
                   transactions == old(transactions)[..i] + old(transactions)[i + 1..]
      ensures r.Ok? ==> forall t :: t in transactions <==> t in old(transactions) && t.id != id
      ensures users == old(users) && budgets == old(budgets) && nextId == old(nextId)
    {
      var i := IndexOfTransaction(transactions, id);
      if i.None? {
        return Err(NotFound);
      }
      var k := i.value;
      ghost var before := transactions;
      transactions := transactions[..k] + transactions[k + 1..];
      assert forall j :: 0 <= j < |transactions| ==>
        transactions[j] == if j < k then before[j] else before[j + 1];
      r := Ok(TransactionDeleted);
    }

    /**
     * updateProfile (name and email): a truthy field replaces the stored one. A truthy password
     * reaches `bcrypt.hash`, which the controller never imports, so the request fails with a
     * server error before anything is saved.
     */
    method UpdateProfile(caller: UserId, name: Option<string>, email: Option<string>, password: Option<string>)
      returns (r: Result<Profile>)
      requires Valid()
      modifies this
      ensures Valid()
      ensures caller !in old(users) ==> r == Err(NotFound) && unchanged(this)
      ensures caller in old(users) && Given(password) ==> r == Err(ServerError) && unchanged(this)
      ensures caller in old(users) && !Given(password) ==>
                var u := old(users)[caller];
                var n := if Given(name) then name.value else u.name;
                var m := if Given(email) then email.value else u.email;
                && r == Ok(Profile(n, m))
                && users == old(users)[caller := u.(name := n, email := m)]
      ensures budgets == old(budgets) && transactions == old(transactions) && nextId == old(nextId)
    {
      if caller !in users {
        return Err(NotFound);
      }
      var u := users[caller];
      if Given(password) {
        return Err(ServerError);
      }
      if Given(name) {
        u := u.(name := name.value);
      }
      if Given(email) {
        u := u.(email := email.value);
      }
      users := users[caller := u];
      r := Ok(Profile(u.name, u.email));
    }

    /** userImage: a missing picture reference is rejected before the user is looked up. */
    method UserImage(caller: UserId, profilePicture: Option<string>) returns (r: Result<string>)
      requires Valid()
      modifies this
      ensures Valid()
      ensures !Given(profilePicture) ==> r == Err(BadRequest) && unchanged(this)
      ensures Given(profilePicture) && caller !in old(users) ==> r == Err(NotFound) && unchanged(this)
      ensures Given(profilePicture) && caller in old(users) ==>
                && r == Ok(profilePicture.value)
                && users == old(users)[caller := old(users)[caller].(profilePicture := profilePicture)]
      ensures budgets == old(budgets) && transactions == old(transactions) && nextId == old(nextId)
    {
      if !Given(profilePicture) {
        return Err(BadRequest);
      }
      if caller !in users {
        return Err(NotFound);
      }
      users := users[caller := users[caller].(profilePicture := profilePicture)];
      r := Ok(profilePicture.value);
    }
  }
}
