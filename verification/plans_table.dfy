/** What the plans table shows: one row per plan in store order, the interval
    and usage-rate cells, and the empty state. */
module PlansTable {
  import opened Wrappers
  import opened Types

  /** `formatInterval`: "month" for the string "monthly", "year" for anything else */
  function FormatInterval(interval: string): (r: string)
    ensures r == "month" <==> interval == "monthly"
    ensures r == "year" <==> interval != "monthly"
  {
    if interval == "monthly" then "month" else "year"
  }

  /** The usage-rate cell: "N/A", or the rate per unit */
  datatype UsageCell = NotApplicable | PerUnit(rate: real)

  /** "N/A" exactly when the rate is absent or 0 (both are falsy) */
  function UsageCellOf(p: Plan): (r: UsageCell)
    ensures r.NotApplicable? <==> p.usageRate.None? || p.usageRate == Some(0.0)
    ensures r.PerUnit? ==> p.usageRate == Some(r.rate)
  {
    match p.usageRate
    case None => NotApplicable
    case Some(rate) => if rate == 0.0 then NotApplicable else PerUnit(rate)
  }

  /** One table row; the edit action receives the plan, the delete action its id */
  datatype Row = Row(
    name: string,
    basePrice: real,
    usage: UsageCell,
    interval: string,
    freeTrialDays: real,
    editTarget: Plan,
    deleteTarget: string)

  function RowOf(p: Plan): Row {
    Row(p.name, p.basePrice, UsageCellOf(p), FormatInterval(IntervalName(p.interval)), p.freeTrialDays, p, p.id)
  }

  /** `plans.map(...)`: one row per plan, in the plans' order */
  function RowsOf(plans: seq<Plan>): (r: seq<Row>)
    ensures |r| == |plans|
    ensures forall i :: 0 <= i < |plans| ==> r[i] == RowOf(plans[i])
    decreases |plans|
  {
    if |plans| == 0 then [] else [RowOf(plans[0])] + RowsOf(plans[1..])
  }

  /** Each row's actions act on the plan displayed in that row, and its interval
      reads "month" exactly for monthly plans */
  lemma RowActionsTargetRowPlan(plans: seq<Plan>, i: int)
    requires 0 <= i < |plans|
    ensures RowsOf(plans)[i].deleteTarget == plans[i].id
    ensures RowsOf(plans)[i].editTarget == plans[i]
    ensures RowsOf(plans)[i].interval == if plans[i].interval == Monthly then "month" else "year"
  {
  }

  /** The table card's content */
  datatype Body = Loading | NoPlansYet | Table(rows: seq<Row>)

  /** Loading first; otherwise the empty state for no plans, and the rows otherwise */
  function TableBody(plans: seq<Plan>, isLoading: bool): (r: Body)
    ensures r.Loading? <==> isLoading
    ensures r.NoPlansYet? <==> !isLoading && |plans| == 0
    ensures r.Table? ==> |r.rows| == |plans| > 0
    ensures r.Table? ==> forall i :: 0 <= i < |plans| ==> r.rows[i] == RowOf(plans[i])
    ensures r.Table? ==> forall i :: 0 <= i < |plans| ==> r.rows[i].editTarget == plans[i]
  {
    if isLoading then Loading
    else if |plans| == 0 then NoPlansYet
    else Table(RowsOf(plans))
  }
}
