/**
 * The finance state of the web client and its reducer
 * (frontend/finance/src/context/FinanceContext.jsx). `T` stands for a transaction record as the
 * backend returns it. The provider's fetch calls are not modelled.
 */
module FinanceContext {
  import opened Common

  /** The reducer state; `totalAmountSpent` is absent until the first UPDATE_TOTAL_AMOUNT_SPENT. */
  datatype FinanceState<T> = FinanceState(transactions: seq<T>, budget: int, totalAmountSpent: Option<int>)

  /** An action type string the reducer has no case for. */
  type UnhandledKind = kind: string
    | kind != "ADD_TRANSACTION" && kind != "SET_BUDGET" && kind != "SET_TRANSACTIONS"
      && kind != "UPDATE_TOTAL_AMOUNT_SPENT"
    witness ""

  /** The dispatched actions; `Other` carries any type string other than the four handled ones. */
  datatype FinanceAction<T> =
    | AddTransaction(transaction: T)
    | SetBudget(budget: int)
    | SetTransactions(transactions: seq<T>)
    | UpdateTotalAmountSpent(total: int)
    | Other(kind: UnhandledKind)

  /** A reducer step either yields the next state or throws "Unhandled action type: ...". */
  datatype Step<T> = Next(state: FinanceState<T>) | Thrown(message: string)

  /** The state the provider starts from: no transactions, a budget of 0. */
  function InitialState<T>(): (s: FinanceState<T>)
    ensures s.transactions == [] && s.budget == 0 && s.totalAmountSpent.None?
  {
    FinanceState([], 0, None)
  }

  /** financeReducer: each handled action replaces one field and keeps the others; any other type throws. */
  function Reduce<T>(s: FinanceState<T>, a: FinanceAction<T>): (r: Step<T>)
    ensures r.Thrown? <==> a.Other?
    ensures r.Thrown? ==> r.message == "Unhandled action type: " + a.kind
    ensures a.AddTransaction? ==>
              && r.Next? && |r.state.transactions| == |s.transactions| + 1
              && r.state.transactions[0] == a.transaction && r.state.transactions[1..] == s.transactions
              && r.state.budget == s.budget && r.state.totalAmountSpent == s.totalAmountSpent
    ensures a.SetBudget? ==>
              r == Next(s.(budget := a.budget)) && r.state.transactions == s.transactions
    ensures a.SetTransactions? ==>
              && r.Next? && r.state.transactions == a.transactions
              && r.state.budget == s.budget && r.state.totalAmountSpent == s.totalAmountSpent
    ensures a.UpdateTotalAmountSpent? ==>
              && r.Next? && r.state.totalAmountSpent == Some(a.total)
              && r.state.transactions == s.transactions && r.state.budget == s.budget
  {
    match a
    case AddTransaction(t) => Next(s.(transactions := [t] + s.transactions))
    case SetBudget(b) => Next(s.(budget := b))
    case SetTransactions(ts) => Next(s.(transactions := ts))
    case UpdateTotalAmountSpent(total) => Next(s.(totalAmountSpent := Some(total)))
    case Other(kind) => Thrown("Unhandled action type: " + kind)
  }

  /** Dispatching actions one after another; the first throw ends the sequence. */
  function DispatchAll<T>(s: FinanceState<T>, actions: seq<FinanceAction<T>>): Step<T>
    decreases |actions|
  {
    if actions == [] then Next(s)
    else match Reduce(s, actions[0])
      case Thrown(m) => Thrown(m)
      case Next(s') => DispatchAll(s', actions[1..])
  }

  /** One ADD_TRANSACTION per record, in order. */
  function Adds<T>(ts: seq<T>): (r: seq<FinanceAction<T>>)
    ensures |r| == |ts|
    ensures forall i :: 0 <= i < |ts| ==> r[i] == AddTransaction(ts[i])
  {
    if ts == [] then [] else [AddTransaction(ts[0])] + Adds(ts[1..])
  }

  /** The records in reverse order. */
  function Reversed<T>(ts: seq<T>): (r: seq<T>)
    ensures |r| == |ts|
    ensures forall i :: 0 <= i < |ts| ==> r[i] == ts[|ts| - 1 - i]
  {
    if ts == [] then [] else Reversed(ts[1..]) + [ts[0]]
  }

  /** Adding records one by one puts the newest first and leaves the budget and total as they were. */
  lemma {:induction false} AddsPrependNewestFirst<T>(s: FinanceState<T>, ts: seq<T>)
    ensures DispatchAll(s, Adds(ts)) == Next(s.(transactions := Reversed(ts) + s.transactions))
    decreases |ts|
  {
    if ts != [] {
      var s' := s.(transactions := [ts[0]] + s.transactions);
      assert Adds(ts)[1..] == Adds(ts[1..]);
      AddsPrependNewestFirst(s', ts[1..]);
      assert Reversed(ts[1..]) + s'.transactions == Reversed(ts) + s.transactions;
    }
  }

  /** A later SET_TRANSACTIONS discards whatever was added before it. */
  lemma {:induction false} SetTransactionsOverridesAdds<T>(s: FinanceState<T>, ts: seq<T>, fetched: seq<T>)
    ensures DispatchAll(s, Adds(ts) + [SetTransactions(fetched)]) == Next(s.(transactions := fetched))
    decreases |ts|
  {
    if ts == [] {
      assert Adds(ts) + [SetTransactions(fetched)] == [SetTransactions(fetched)];
    } else {
      var s' := s.(transactions := [ts[0]] + s.transactions);
      assert (Adds(ts) + [SetTransactions(fetched)])[1..] == Adds(ts[1..]) + [SetTransactions(fetched)];
      SetTransactionsOverridesAdds(s', ts[1..], fetched);
    }
  }
}
