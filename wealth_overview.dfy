/**
 * The spending breakdown of the wealth overview chart
 * (frontend/finance/src/components/WealthOverview.jsx, fetchTransactions). The fetched
 * transactions are grouped by description in a JavaScript `Map`, whose entries are then pushed,
 * in insertion order, onto the list the chart draws; a `reduce` adds up the grand total. The
 * `Map` is modelled by its keys in insertion order and a Dafny `map` from key to running sum.
 */
module WealthOverview {

  /** The two fields of a fetched transaction the breakdown reads. */
  datatype Txn = Txn(description: string, amount: int)

  /** One entry `{description, amount}` of the aggregated list. */
  datatype Slice = Slice(description: string, amount: int)

  /** The aggregated list and its total, as the component stores them. */
  datatype Overview = Overview(slices: seq<Slice>, total: int)

  /** The distinct descriptions in the order in which each first occurs. */
  function Descriptions(data: seq<Txn>): (r: seq<string>)
    ensures forall d :: d in r <==> exists i :: 0 <= i < |data| && data[i].description == d
    ensures forall i, j :: 0 <= i < j < |r| ==> r[i] != r[j]
  {
    if data == [] then []
    else
      var prev := Descriptions(data[..|data| - 1]);
      var d := data[|data| - 1].description;
      assert forall i :: 0 <= i < |data| - 1 ==> data[..|data| - 1][i] == data[i];
      if d in prev then prev else prev + [d]
  }

  /** The sum of the amounts of the transactions with description `d`. */
  function AmountFor(data: seq<Txn>, d: string): int {
    if data == [] then 0
    else AmountFor(data[..|data| - 1], d) + (if data[|data| - 1].description == d then data[|data| - 1].amount else 0)
  }

  /** The sum of all amounts. */
  function AmountTotal(data: seq<Txn>): int {
    if data == [] then 0 else AmountTotal(data[..|data| - 1]) + data[|data| - 1].amount
  }

  /** `aggregatedData.reduce((sum, t) => sum + t.amount, 0)`. */
  function SliceTotal(slices: seq<Slice>): (sum: int)
    ensures (forall i :: 0 <= i < |slices| ==> slices[i].amount >= 0) ==> sum >= 0
    ensures (forall i :: 0 <= i < |slices| ==> slices[i].amount <= 0) ==> sum <= 0
  {
    if slices == [] then 0 else SliceTotal(slices[..|slices| - 1]) + slices[|slices| - 1].amount
  }

  /** The sum, over the given descriptions, of the amounts recorded under each. */
  function KeyedTotal(keys: seq<string>, data: seq<Txn>): int {
    if keys == [] then 0 else KeyedTotal(keys[..|keys| - 1], data) + AmountFor(data, keys[|keys| - 1])
  }

  /** A description that no transaction carries has nothing recorded under it. */
  lemma {:induction false} AmountForAbsent(data: seq<Txn>, d: string)
    requires forall i :: 0 <= i < |data| ==> data[i].description != d
    ensures AmountFor(data, d) == 0
  {
    if data != [] {
      var p := data[..|data| - 1];
      assert forall i :: 0 <= i < |p| ==> p[i] == data[i];
      AmountForAbsent(p, d);
    }
  }

  /** One more transaction adds its amount to its own description and to no other. */
  lemma AmountForAppend(data: seq<Txn>, t: Txn, d: string)
    ensures AmountFor(data + [t], d) == AmountFor(data, d) + (if t.description == d then t.amount else 0)
  {
    assert (data + [t])[..|data|] == data;
  }

  /** Over distinct descriptions, one more transaction adds its amount once if its description is among them. */
  lemma {:induction false} KeyedTotalAppend(keys: seq<string>, data: seq<Txn>, t: Txn)
    requires forall i, j :: 0 <= i < j < |keys| ==> keys[i] != keys[j]
    ensures KeyedTotal(keys, data + [t]) ==
              KeyedTotal(keys, data) + (if t.description in keys then t.amount else 0)
  {
    if keys != [] {
      var p := keys[..|keys| - 1];
      var k := keys[|keys| - 1];
      assert keys == p + [k];
      KeyedTotalAppend(p, data, t);
      AmountForAppend(data, t, k);
      assert t.description in keys <==> t.description in p || t.description == k;
      assert k !in p;
    }
  }

  /** Grouping loses nothing: summing the per-description amounts gives the sum of all amounts. */
  lemma {:induction false} GroupedTotal(data: seq<Txn>)
    ensures KeyedTotal(Descriptions(data), data) == AmountTotal(data)
  {
    if data != [] {
      var p := data[..|data| - 1];
      var t := data[|data| - 1];
      assert data == p + [t];
      var keys := Descriptions(p);
      GroupedTotal(p);
      KeyedTotalAppend(keys, p, t);
      if t.description !in keys {
        assert (keys + [t.description])[..|keys|] == keys;
        AmountForAppend(p, t, t.description);
        AmountForAbsent(p, t.description);
      }
    }
  }

  /** The breakdown's total equals the grouped sum it is built from. */
  lemma {:induction false} SliceTotalOfGroups(slices: seq<Slice>, keys: seq<string>, data: seq<Txn>)
    requires |slices| == |keys|
    requires forall i :: 0 <= i < |slices| ==> slices[i] == Slice(keys[i], AmountFor(data, keys[i]))
    ensures SliceTotal(slices) == KeyedTotal(keys, data)
  {
    if slices != [] {
      SliceTotalOfGroups(slices[..|slices| - 1], keys[..|keys| - 1], data);
    }
  }

  /** Earlier transactions fix the order of the descriptions they introduce: later ones only append. */
  lemma {:induction false} DescriptionsGrowByAppending(data: seq<Txn>, n: nat)
    requires n <= |data|
    ensures |Descriptions(data[..n])| <= |Descriptions(data)|
    ensures Descriptions(data[..n]) == Descriptions(data)[..|Descriptions(data[..n])|]
    decreases |data| - n
  {
    if n < |data| {
      var q := data[..n + 1];
      assert q[..n] == data[..n] && q[..|q| - 1] == data[..n];
      DescriptionsGrowByAppending(data, n + 1);
    } else {
      assert data[..n] == data;
    }
  }

  /**
   * The `data.forEach` that fills the `Map`: `keys` are the Map's keys in insertion order and
   * `sums` holds the amount accumulated under each.
   */
  method GroupByDescription(data: seq<Txn>) returns (keys: seq<string>, sums: map<string, int>)
    ensures keys == Descriptions(data)
    ensures forall k :: k in sums <==> k in keys
    ensures forall k :: k in sums ==> sums[k] == AmountFor(data, k)
  {
    keys, sums := [], map[];
    var i := 0;
    while i < |data|
      invariant 0 <= i <= |data|
      invariant keys == Descriptions(data[..i])
      invariant forall k :: k in sums <==> k in keys
      invariant forall k :: k in sums ==> sums[k] == AmountFor(data[..i], k)
    {
      var t := data[i];
      assert data[..i + 1] == data[..i] + [t];
      assert data[..i + 1][..i] == data[..i];
      forall k | k in sums
        ensures AmountFor(data[..i + 1], k) == AmountFor(data[..i], k) + (if t.description == k then t.amount else 0)
      {
        AmountForAppend(data[..i], t, k);
      }
      if t.description in sums {
        sums := sums[t.description := sums[t.description] + t.amount];
      } else {
        AmountForAppend(data[..i], t, t.description);
        AmountForAbsent(data[..i], t.description);
        keys := keys + [t.description];
        sums := sums[t.description := t.amount];
      }
      i := i + 1;
    }
    assert data[..|data|] == data;
  }

  /**
   * The aggregation block of fetchTransactions: one slice per distinct description, in the
   * order of first occurrence, carrying the sum of that description's amounts, and the total.
   */
  method AggregateByDescription(data: seq<Txn>) returns (aggregated: seq<Slice>, total: int)
    ensures |aggregated| == |Descriptions(data)|
    ensures forall i :: 0 <= i < |aggregated| ==>
              aggregated[i].description == Descriptions(data)[i] &&
              aggregated[i].amount == AmountFor(data, aggregated[i].description)
    ensures forall i, j :: 0 <= i < j < |aggregated| ==> aggregated[i].description != aggregated[j].description
    ensures forall t :: t in data ==> exists i :: 0 <= i < |aggregated| && aggregated[i].description == t.description
    ensures total == AmountTotal(data)
    ensures data == [] ==> aggregated == [] && total == 0
  {
    var keys, sums := GroupByDescription(data);
    aggregated := [];
    var j := 0;
    while j < |keys|
      invariant 0 <= j <= |keys|
      invariant |aggregated| == j
      invariant forall q :: 0 <= q < j ==> aggregated[q] == Slice(keys[q], AmountFor(data, keys[q]))
    {
      aggregated := aggregated + [Slice(keys[j], sums[keys[j]])];
      j := j + 1;
    }

    total := SliceTotal(aggregated);
    SliceTotalOfGroups(aggregated, keys, data);
    GroupedTotal(data);
    forall t | t in data
      ensures exists q :: 0 <= q < |aggregated| && aggregated[q].description == t.description
    {
      var n :| 0 <= n < |data| && data[n] == t;
      assert t.description in keys;
      var q :| 0 <= q < |keys| && keys[q] == t.description;
      assert aggregated[q].description == t.description;
    }
  }

  /** The chart label of a slice: a falsy (empty) description is shown as "Miscellaneous". */
  function ChartLabel(description: string): (shown: string)
    ensures shown != ""
    ensures description != "" ==> shown == description
    ensures description == "" ==> shown == "Miscellaneous"
  {
    if description == "" then "Miscellaneous" else description
  }

  /** The chart's labels, one per slice and never empty. */
  function ChartLabels(slices: seq<Slice>): (labels: seq<string>)
    ensures |labels| == |slices|
    ensures forall i :: 0 <= i < |slices| ==> labels[i] != ""
    ensures forall i :: 0 <= i < |slices| ==> labels[i] == ChartLabel(slices[i].description)
  {
    seq(|slices|, i requires 0 <= i < |slices| => ChartLabel(slices[i].description))
  }
}
