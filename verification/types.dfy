/** The records of the billing data layer and the closed string unions they use.
    Timestamps, which the program keeps as ISO-8601 strings, are modelled as
    integer milliseconds since the Unix epoch. Prices, usage rates and trial
    lengths are JavaScript numbers, modelled as reals. */
module Types {
  import opened Wrappers

  /** Milliseconds since 1970-01-01T00:00:00Z */
  type Timestamp = int

  /** A billing interval: one of the two string literals monthly and yearly */
  datatype Interval = Monthly | Yearly

  /** A subscription status: one of four string literals */
  datatype Status = Active | PastDue | Canceled | Trialing

  /** The string literal the program uses for an interval */
  function IntervalName(i: Interval): string {
    match i
    case Monthly => "monthly"
    case Yearly => "yearly"
  }

  /** Reads an interval literal; any other string is not an interval */
  function ParseInterval(s: string): (r: Option<Interval>)
    ensures r.Some? ==> IntervalName(r.value) == s
  {
    if s == "monthly" then Some(Monthly)
    else if s == "yearly" then Some(Yearly)
    else None
  }

  /** Every interval's literal reads back as that interval, and only those two literals do */
  lemma ParseIntervalRoundTrip(s: string, i: Interval)
    ensures ParseInterval(IntervalName(i)) == Some(i)
    ensures ParseInterval(s).Some? <==> s == "monthly" || s == "yearly"
  {
  }

  /** The string literal the program uses for a status */
  function StatusName(s: Status): string {
    match s
    case Active => "active"
    case PastDue => "past_due"
    case Canceled => "canceled"
    case Trialing => "trialing"
  }

  /** Reads a status literal; any other string is not a status */
  function ParseStatus(s: string): (r: Option<Status>)
    ensures r.Some? ==> StatusName(r.value) == s
  {
    if s == "active" then Some(Active)
    else if s == "past_due" then Some(PastDue)
    else if s == "canceled" then Some(Canceled)
    else if s == "trialing" then Some(Trialing)
    else None
  }

  /** Every status's literal reads back as that status, and exactly four literals are statuses */
  lemma ParseStatusRoundTrip(s: string, t: Status)
    ensures ParseStatus(StatusName(t)) == Some(t)
    ensures ParseStatus(s).Some? <==> s in {"active", "past_due", "canceled", "trialing"}
  {
  }

  /** A pricing plan. `usageRate` is optional; `createdAt` is set once by the store. */
  datatype Plan = Plan(
    id: string,
    name: string,
    interval: Interval,
    basePrice: real,
    usageRate: Option<real>,
    freeTrialDays: real,
    createdAt: Timestamp)

  /** A customer. `currentPlan` is a copy of a plan taken when the subscription
      started, not a reference into the plan store. */
  datatype Customer = Customer(
    id: string,
    email: string,
    companyName: string,
    currentPlan: Option<Plan>,
    status: Status,
    createdAt: Timestamp,
    trialEndsAt: Option<Timestamp>)

  /** The payload of a plan creation: a plan without `id` and `createdAt` */
  datatype CreatePlanData = CreatePlanData(
    name: string,
    interval: Interval,
    basePrice: real,
    usageRate: Option<real>,
    freeTrialDays: real)

  /** `Partial<CreatePlanData>`: `None` is an omitted property. For `usageRate`
      the program can also pass the property with the value `undefined`
      (`Some(None)`), which object spread copies, clearing the old rate. */
  datatype PlanPatch = PlanPatch(
    name: Option<string>,
    interval: Option<Interval>,
    basePrice: Option<real>,
    usageRate: Option<Option<real>>,
    freeTrialDays: Option<real>)

  /** The payload of a customer creation: only the contact fields */
  datatype CreateCustomerData = CreateCustomerData(email: string, companyName: string)

  datatype StartSubscriptionData = StartSubscriptionData(customerId: string, planId: string)

  /** The editable fields of a plan, as a creation payload */
  function DataOf(p: Plan): CreatePlanData {
    CreatePlanData(p.name, p.interval, p.basePrice, p.usageRate, p.freeTrialDays)
  }

  /** A complete payload passed where a partial one is expected: every property
      is present, `usageRate` even when it is `undefined` */
  function PatchOf(d: CreatePlanData): PlanPatch {
    PlanPatch(Some(d.name), Some(d.interval), Some(d.basePrice), Some(d.usageRate), Some(d.freeTrialDays))
  }

  /** The patch that supplies no property */
  const EmptyPatch := PlanPatch(None, None, None, None, None)
}
