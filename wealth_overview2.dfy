/**
 * The date-filtered variant of the wealth overview chart
 * (frontend/finance/src/components/WealthOverview2.jsx): the same aggregation, run only once
 * both date inputs hold a value. The fetched transactions (the backend's date-range query) are
 * a parameter.
 */
module WealthOverview2 {
  import opened Common
  import opened WealthOverview

  /** The effect of a change of the date inputs: an overview when both dates are set, otherwise nothing is fetched. */
  method Refresh(startDate: string, endDate: string, data: seq<Txn>) returns (r: Option<Overview>)
    ensures r.Some? <==> startDate != "" && endDate != ""
    ensures r.Some? ==> r.value.total == AmountTotal(data)
    ensures r.Some? ==> |r.value.slices| == |Descriptions(data)|
    ensures r.Some? ==> forall i :: 0 <= i < |r.value.slices| ==>
              r.value.slices[i].description == Descriptions(data)[i] &&
              r.value.slices[i].amount == AmountFor(data, r.value.slices[i].description)
    ensures r.Some? ==> forall i, j :: 0 <= i < j < |r.value.slices| ==>
              r.value.slices[i].description != r.value.slices[j].description
  {
    if startDate != "" && endDate != "" {
      var slices, total := AggregateByDescription(data);
      r := Some(Overview(slices, total));
    } else {
      r := None;
    }
  }
}
