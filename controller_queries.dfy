/**
 * The expression-level parts of backend/controllers/userController.js: the inclusive overlap
 * and date-range predicates, the first-match lookups (`findOne`, `find`, `findById`), the
 * store queries filtering transactions, the `reduce` that sums amounts, and the `map` that
 * rewrites the embedded budget copies.
 */
module ControllerQueries {
  import opened Common
  import opened Documents
  import opened BudgetSchema

  /** A period overlaps the queried range when it starts no later than the range ends and ends no earlier than it starts. */
  predicate Overlaps(periodStart: int, periodEnd: int, start: int, end: int) {
    periodStart <= end && periodEnd >= start
  }

  /** Membership of a date in an inclusive range. */
  predicate Within(date: int, start: int, end: int) {
    start <= date <= end
  }

  /** The condition of the `Budget.findOne` query in setBudget. */
  predicate BudgetMatches(b: Budget, user: UserId, start: int, end: int) {
    b.userId == user && Overlaps(b.startDate, b.endDate, start, end)
  }

  /** The index of the first stored Budget of `user` overlapping `[start, end]`, in store order. */
  function FirstOverlappingBudget(bs: seq<Budget>, user: UserId, start: int, end: int): (r: Option<nat>)
    ensures r.Some? ==> r.value < |bs| && BudgetMatches(bs[r.value], user, start, end)
    ensures r.Some? ==> forall j :: 0 <= j < r.value ==> !BudgetMatches(bs[j], user, start, end)
    ensures r.None? <==> forall j :: 0 <= j < |bs| ==> !BudgetMatches(bs[j], user, start, end)
  {
    if bs == [] then None
    else if BudgetMatches(bs[0], user, start, end) then Some(0)
    else match FirstOverlappingBudget(bs[1..], user, start, end)
      case None => None
      case Some(k) => Some(k + 1)
  }

  /** The index of the first embedded budget copy overlapping `[start, end]` (the `find` in checkBudget). */
  function FirstOverlappingEntry(es: seq<BudgetEntry>, start: int, end: int): (r: Option<nat>)
    ensures r.Some? ==> r.value < |es| && Overlaps(es[r.value].startDate, es[r.value].endDate, start, end)
    ensures r.Some? ==> forall j :: 0 <= j < r.value ==> !Overlaps(es[j].startDate, es[j].endDate, start, end)
    ensures r.None? <==> forall j :: 0 <= j < |es| ==> !Overlaps(es[j].startDate, es[j].endDate, start, end)
  {
    if es == [] then None
    else if Overlaps(es[0].startDate, es[0].endDate, start, end) then Some(0)
    else match FirstOverlappingEntry(es[1..], start, end)
      case None => None
      case Some(k) => Some(k + 1)
  }

  /** The index of the transaction with identifier `id` (`findById`). */
  function IndexOfTransaction(ts: seq<Transaction>, id: DocId): (r: Option<nat>)
    ensures r.Some? ==> r.value < |ts| && ts[r.value].id == id
    ensures r.Some? ==> forall j :: 0 <= j < r.value ==> ts[j].id != id
    ensures r.None? <==> forall j :: 0 <= j < |ts| ==> ts[j].id != id
  {
    if ts == [] then None
    else if ts[0].id == id then Some(0)
    else match IndexOfTransaction(ts[1..], id)
      case None => None
      case Some(k) => Some(k + 1)
  }

  /** The result of `Transaction.find({userId})`: the user's transactions in store order. */
  function OwnedBy(ts: seq<Transaction>, user: UserId): (r: seq<Transaction>)
    ensures forall t :: t in r <==> t in ts && t.userId == user
    ensures forall t :: multiset(r)[t] == if t.userId == user then multiset(ts)[t] else 0
  {
    if ts == [] then []
    else
      assert ts == [ts[0]] + ts[1..];
      (if ts[0].userId == user then [ts[0]] else []) + OwnedBy(ts[1..], user)
  }

  /** The result of `Transaction.find({userId, date: {$gte: start, $lte: end}})`. */
  function OwnedInRange(ts: seq<Transaction>, user: UserId, start: int, end: int): (r: seq<Transaction>)
    ensures forall t :: t in r <==> t in ts && t.userId == user && Within(t.date, start, end)
  {
    if ts == [] then []
    else
      assert ts == [ts[0]] + ts[1..];
      (if ts[0].userId == user && Within(ts[0].date, start, end) then [ts[0]] else [])
      + OwnedInRange(ts[1..], user, start, end)
  }

  /** The range query keeps every matching transaction as often as the store holds it, and nothing else. */
  lemma {:induction false} OwnedInRangeCounts(ts: seq<Transaction>, user: UserId, start: int, end: int)
    ensures forall t :: multiset(OwnedInRange(ts, user, start, end))[t] ==
              if t.userId == user && Within(t.date, start, end) then multiset(ts)[t] else 0
  {
    if ts != [] {
      assert ts == [ts[0]] + ts[1..];
      OwnedInRangeCounts(ts[1..], user, start, end);
    }
  }

  /** Every transaction records a non-negative amount. */
  predicate AllNonNegative(ts: seq<Transaction>) {
    forall i :: 0 <= i < |ts| ==> ts[i].amount >= 0
  }

  /** Every transaction records a non-positive amount. */
  predicate AllNonPositive(ts: seq<Transaction>) {
    forall i :: 0 <= i < |ts| ==> ts[i].amount <= 0
  }

  /** `transactions.reduce((sum, t) => sum + t.amount, 0)`: a left fold of the amounts. */
  function Total(ts: seq<Transaction>): (sum: int)
    ensures AllNonNegative(ts) ==> sum >= 0
    ensures AllNonPositive(ts) ==> sum <= 0
  {
    if ts == [] then 0 else Total(ts[..|ts| - 1]) + ts[|ts| - 1].amount
  }

  /** What checkBudget reports as spent over `[start, end]`. */
  function SpentInRange(ts: seq<Transaction>, user: UserId, start: int, end: int): int {
    Total(OwnedInRange(ts, user, start, end))
  }

  /**
   * The `user.budgets.map(...)` of setBudget's update path: an entry whose start and end equal
   * the request's exactly gets the new amount; every other entry is returned as it was.
   */
  function UpdateExactPeriod(es: seq<BudgetEntry>, start: int, end: int, amount: int): (r: seq<BudgetEntry>)
    ensures |r| == |es|
    ensures forall k :: 0 <= k < |es| ==>
              r[k].startDate == es[k].startDate && r[k].endDate == es[k].endDate
    ensures forall k :: 0 <= k < |es| ==>
              (r[k] != es[k] <==> es[k].startDate == start && es[k].endDate == end && es[k].amount != amount)
    ensures forall k :: 0 <= k < |es| && es[k].startDate == start && es[k].endDate == end ==>
              r[k].amount == amount
  {
    seq(|es|, k requires 0 <= k < |es| =>
      if es[k].startDate == start && es[k].endDate == end then es[k].(amount := amount) else es[k])
  }

  /** Summing is compatible with concatenation. */
  lemma {:induction false} TotalConcat(a: seq<Transaction>, b: seq<Transaction>)
    ensures Total(a + b) == Total(a) + Total(b)
  {
    if b == [] {
      assert a + b == a;
    } else {
      TotalConcat(a, b[..|b| - 1]);
      assert (a + b)[..|a + b| - 1] == a + b[..|b| - 1];
    }
  }

  /** Taking one transaction out of a sequence lowers the total by exactly its amount. */
  lemma {:induction false} TotalRemoveAt(b: seq<Transaction>, k: nat)
    requires k < |b|
    ensures Total(b) == Total(b[..k] + b[k + 1..]) + b[k].amount
  {
    var p, q := b[..k], b[k + 1..];
    var px := p + [b[k]];
    assert b == px + q;
    assert px[..|px| - 1] == p;
    TotalConcat(px, q);
    TotalConcat(p, q);
  }

  /** Taking one transaction out of a sequence takes one occurrence of it out of its multiset. */
  lemma {:induction false} MultisetRemoveAt(b: seq<Transaction>, k: nat)
    requires k < |b|
    ensures multiset(b[..k] + b[k + 1..]) == multiset(b) - multiset{b[k]}
  {
    var p, q := b[..k], b[k + 1..];
    assert b == p + [b[k]] + q;
    assert multiset(b) == multiset(p) + multiset{b[k]} + multiset(q);
  }

  /** The total does not depend on the order of the transactions. */
  lemma {:induction false} TotalPermutation(a: seq<Transaction>, b: seq<Transaction>)
    requires multiset(a) == multiset(b)
    ensures Total(a) == Total(b)
    decreases |a|
  {
    if a == [] {
      assert |b| == |multiset(b)| == 0;
    } else {
      var n := |a| - 1;
      assert a[n] in multiset(b);
      var k :| 0 <= k < |b| && b[k] == a[n];
      MultisetRemoveAt(a, n);
      assert a[..n] + a[n + 1..] == a[..n];
      MultisetRemoveAt(b, k);
      TotalPermutation(a[..n], b[..k] + b[k + 1..]);
      TotalRemoveAt(b, k);
    }
  }

  /** Filtering is compatible with concatenation: the result keeps store order. */
  lemma {:induction false} OwnedInRangeConcat(a: seq<Transaction>, b: seq<Transaction>, user: UserId, start: int, end: int)
    ensures OwnedInRange(a + b, user, start, end) == OwnedInRange(a, user, start, end) + OwnedInRange(b, user, start, end)
  {
    if a == [] {
      assert a + b == b;
    } else {
      var ab := a + b;
      assert ab != [] && ab[0] == a[0] && ab[1..] == a[1..] + b;
      OwnedInRangeConcat(a[1..], b, user, start, end);
      var head := if a[0].userId == user && Within(a[0].date, start, end) then [a[0]] else [];
      var restA := OwnedInRange(a[1..], user, start, end);
      var restB := OwnedInRange(b, user, start, end);
      calc {
        OwnedInRange(ab, user, start, end);
        head + OwnedInRange(ab[1..], user, start, end);
        head + (restA + restB);
        { assert head + (restA + restB) == (head + restA) + restB; }
        (head + restA) + restB;
      }
    }
  }

  /** The amount spent does not depend on the order in which the store returns transactions. */
  lemma SpentIsOrderIndependent(a: seq<Transaction>, b: seq<Transaction>, user: UserId, start: int, end: int)
    requires multiset(a) == multiset(b)
    ensures SpentInRange(a, user, start, end) == SpentInRange(b, user, start, end)
  {
    var fa, fb := OwnedInRange(a, user, start, end), OwnedInRange(b, user, start, end);
    OwnedInRangeCounts(a, user, start, end);
    OwnedInRangeCounts(b, user, start, end);
    assert forall t :: multiset(fa)[t] == multiset(fb)[t];
    assert multiset(fa) == multiset(fb);
    TotalPermutation(fa, fb);
  }

  /** Appending a transaction adds its amount to the spend of a range exactly when it is the user's and dated inside it. */
  lemma SpentAfterAppend(ts: seq<Transaction>, t: Transaction, user: UserId, start: int, end: int)
    ensures SpentInRange(ts + [t], user, start, end) ==
              SpentInRange(ts, user, start, end) + (if t.userId == user && Within(t.date, start, end) then t.amount else 0)
  {
    OwnedInRangeConcat(ts, [t], user, start, end);
    var tail := OwnedInRange([t], user, start, end);
    assert [t][1..] == [];
    TotalConcat(OwnedInRange(ts, user, start, end), tail);
    if tail != [] {
      assert tail == [t];
      assert [t][..0] == [];
    }
  }

  /** When no embedded copy has exactly the requested dates, the update path leaves them all as they were. */
  lemma NoExactPeriodNoChange(es: seq<BudgetEntry>, start: int, end: int, amount: int)
    requires forall k :: 0 <= k < |es| ==> !(es[k].startDate == start && es[k].endDate == end)
    ensures UpdateExactPeriod(es, start, end, amount) == es
  {
  }

  /** Rewriting the embedded copies keeps them acceptable to the Budget schema when the new amount is. */
  lemma UpdateExactPeriodKeepsValid(es: seq<BudgetEntry>, start: int, end: int, amount: int)
    requires EntriesValid(es) && amount >= 0
    ensures EntriesValid(UpdateExactPeriod(es, start, end, amount))
  {
  }
}
