/** The statistics the dashboard derives from the loaded customers and plans.
    Either list may still be absent while it loads. */
module Dashboard {
  import opened Wrappers
  import opened Types
  import opened Seqs

  datatype Stats = Stats(totalCustomers: nat, activeCustomers: nat, totalPlans: nat, averagePrice: real)

  predicate IsActive(c: Customer) {
    c.status == Active
  }

  /** The number of customers whose status is active */
  function ActiveCount(customers: seq<Customer>): nat {
    |Filter(customers, IsActive)|
  }

  /** The total of the plans' base prices, added left to right from 0 */
  function SumBasePrice(plans: seq<Plan>): real
    decreases |plans|
  {
    if |plans| == 0 then 0.0 else SumBasePrice(plans[..|plans| - 1]) + plans[|plans| - 1].basePrice
  }

  /** The dashboard's four computed figures; a missing list counts as empty and
      the average of no plans is 0 */
  function ComputeStats(customers: Option<seq<Customer>>, plans: Option<seq<Plan>>): (r: Stats)
    ensures r.totalCustomers == if customers.Some? then |customers.value| else 0
    ensures r.activeCustomers == if customers.Some? then ActiveCount(customers.value) else 0
    ensures r.activeCustomers <= r.totalCustomers
    ensures r.totalPlans == if plans.Some? then |plans.value| else 0
    ensures r.totalPlans == 0 ==> r.averagePrice == 0.0
    ensures r.totalPlans > 0 ==> r.averagePrice * r.totalPlans as real == SumBasePrice(plans.value)
  {
    var totalCustomers := if customers.Some? then |customers.value| else 0;
    var activeCustomers := if customers.Some? then ActiveCount(customers.value) else 0;
    var totalPlans := if plans.Some? then |plans.value| else 0;
    Stats(totalCustomers, activeCustomers, totalPlans, AveragePrice(plans))
  }

  /** The mean base price, 0 when the list is absent or empty */
  function AveragePrice(plans: Option<seq<Plan>>): real {
    if plans.Some? && |plans.value| > 0 then SumBasePrice(plans.value) / (|plans.value| as real) else 0.0
  }

  /** The active count grows by one exactly for an appended active customer:
      trialing, past-due and canceled customers are not counted */
  lemma ActiveCountAppend(customers: seq<Customer>, c: Customer)
    ensures ActiveCount(customers + [c]) == ActiveCount(customers) + if c.status == Active then 1 else 0
  {
    FilterConcat(customers, [c], IsActive);
  }

  /** The lowest base price of a non-empty plan list */
  function MinPrice(plans: seq<Plan>): (r: real)
    requires |plans| > 0
    ensures forall i :: 0 <= i < |plans| ==> r <= plans[i].basePrice
    ensures exists i :: 0 <= i < |plans| && r == plans[i].basePrice
    decreases |plans|
  {
    if |plans| == 1 then plans[0].basePrice
    else
      var m := MinPrice(plans[..|plans| - 1]);
      if plans[|plans| - 1].basePrice < m then plans[|plans| - 1].basePrice else m
  }

  /** The highest base price of a non-empty plan list */
  function MaxPrice(plans: seq<Plan>): (r: real)
    requires |plans| > 0
    ensures forall i :: 0 <= i < |plans| ==> plans[i].basePrice <= r
    ensures exists i :: 0 <= i < |plans| && r == plans[i].basePrice
    decreases |plans|
  {
    if |plans| == 1 then plans[0].basePrice
    else
      var m := MaxPrice(plans[..|plans| - 1]);
      if plans[|plans| - 1].basePrice > m then plans[|plans| - 1].basePrice else m
  }

  /** A sum of prices lying in [lo, hi] lies between count·lo and count·hi */
  lemma {:induction false} SumBetween(plans: seq<Plan>, lo: real, hi: real)
    requires forall i :: 0 <= i < |plans| ==> lo <= plans[i].basePrice <= hi
    ensures |plans| as real * lo <= SumBasePrice(plans) <= |plans| as real * hi
    decreases |plans|
  {
    if |plans| > 0 {
      var prefix := plans[..|plans| - 1];
      assert forall i :: 0 <= i < |prefix| ==> prefix[i] == plans[i];
      SumBetween(prefix, lo, hi);
      assert |plans| as real * lo == |prefix| as real * lo + lo;
      assert |plans| as real * hi == |prefix| as real * hi + hi;
    }
  }

  /** Prices in [lo, hi] have their mean in [lo, hi] */
  lemma MeanBetween(plans: seq<Plan>, lo: real, hi: real)
    requires |plans| > 0
    requires forall i :: 0 <= i < |plans| ==> lo <= plans[i].basePrice <= hi
    ensures lo <= SumBasePrice(plans) / (|plans| as real) <= hi
  {
    SumBetween(plans, lo, hi);
    DivBetween(SumBasePrice(plans), |plans| as real, lo, hi);
  }

  /** A quotient sum / n with n·lo <= sum <= n·hi lies in [lo, hi] */
  lemma DivBetween(sum: real, n: real, lo: real, hi: real)
    requires n > 0.0 && n * lo <= sum <= n * hi
    ensures lo <= sum / n <= hi
  {
    var m := sum / n;
    assert m * n == sum;
    assert (m - lo) * n == sum - n * lo;
    assert (hi - m) * n == n * hi - sum;
  }

  /** The average plan price lies between the cheapest and the dearest plan */
  lemma AverageWithinRange(plans: seq<Plan>)
    requires |plans| > 0
    ensures MinPrice(plans) <= AveragePrice(Some(plans)) <= MaxPrice(plans)
  {
    MeanBetween(plans, MinPrice(plans), MaxPrice(plans));
  }
}
