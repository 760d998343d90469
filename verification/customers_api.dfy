/** The in-memory customer store: a sequence of customers in insertion order,
    with the list, create and start-subscription operations of the mock API.
    There is no removal, so customer ids stay "1" to "n" in order. */
module CustomersApi {
  import opened Wrappers
  import opened Types
  import opened Seqs
  import Decimal

  type Store = seq<Customer>

  /** The number of milliseconds in a day */
  const MsPerDay: int := 86400000

  const NotFound := "Customer not found"

  /** The store's contents when the program starts. Customer "1" is active on a
      plan with a 14-day trial and has no trial end: seed data is not produced
      by `StartSubscription`, so it need not follow the trial rule. */
  const Seed: Store := [
    Customer("1", "john@acme.com", "Acme Corp",
      Some(Plan("2", "Professional", Monthly, 99.0, Some(0.05), 14.0, 1705312800000)),
      Active, 1706781600000, None),
    Customer("2", "sarah@startup.io", "Startup Inc",
      Some(Plan("1", "Starter", Monthly, 29.0, Some(0.1), 14.0, 1705312800000)),
      Trialing, 1707559200000, Some(1708768800000))
  ]

  /** The status and trial end `StartSubscription` gives a customer on `plan`:
      trialing until the end of the trial when the plan has one, active with no
      trial end otherwise */
  predicate FollowsTrialRule(c: Customer, now: Timestamp) {
    && c.currentPlan.Some?
    && (c.currentPlan.value.freeTrialDays > 0.0 ==>
          c.status == Trialing && c.trialEndsAt == Some(TimeClip(now as real + c.currentPlan.value.freeTrialDays * MsPerDay as real)))
    && (c.currentPlan.value.freeTrialDays <= 0.0 ==> c.status == Active && c.trialEndsAt.None?)
  }

  /** The initial store: two customers numbered "1" and "2"; customer "2" is on a
      14-day trial ending exactly 14 days after it was created; customer "1"
      breaks the trial rule at every time */
  lemma SeedShape(now: Timestamp)
    ensures |Seed| == 2 && Seed[0].id == "1" && Seed[1].id == "2"
    ensures Seed[1].status == Trialing
    ensures Seed[1].trialEndsAt == Some(Seed[1].createdAt + 14 * MsPerDay)
    ensures !FollowsTrialRule(Seed[0], now)
  {
  }

  /** `new Date(x)`: a time value keeps the integer part of `x`, truncated toward zero */
  function TimeClip(x: real): (r: int)
    ensures x >= 0.0 ==> r as real <= x < r as real + 1.0
    ensures x < 0.0 ==> r as real - 1.0 < x <= r as real
  {
    if x >= 0.0 then x.Floor else -((-x).Floor)
  }

  /** With a whole number of trial days the trial ends exactly that many days after `now` */
  lemma TrialEndWholeDays(now: Timestamp, days: nat)
    ensures TimeClip(now as real + (days as real) * MsPerDay as real) == now + days * MsPerDay
  {
    assert now as real + (days as real) * MsPerDay as real == (now + days * MsPerDay) as real;
  }

  /** `getAll`: the stored customers, oldest first */
  function GetAll(store: Store): Store {
    store
  }

  /** `create`: appends an active customer without a plan or trial, numbered one
      past the current length */
  function Create(store: Store, data: CreateCustomerData, now: Timestamp): (r: (Store, Customer))
    ensures |r.0| == |store| + 1
    ensures r.0[..|store|] == store
    ensures r.1 == r.0[|store|]
    ensures r.1.id == Decimal.NatToString(|store| + 1)
    ensures r.1.email == data.email && r.1.companyName == data.companyName
    ensures r.1.status == Active && r.1.currentPlan.None? && r.1.trialEndsAt.None?
    ensures r.1.createdAt == now
  {
    var customer := Customer(Decimal.NatToString(|store| + 1), data.email, data.companyName,
                             None, Active, now, None);
    (store + [customer], customer)
  }

  predicate HasId(c: Customer, id: string) {
    c.id == id
  }

  /** `startSubscription`: gives the first customer carrying `data.customerId` a
      copy of `plan`, with status and trial end by the trial rule, or fails with
      "Customer not found". `data.planId` is not consulted: the plan is passed in. */
  function StartSubscription(store: Store, data: StartSubscriptionData, plan: Plan, now: Timestamp)
    : (r: Result<(Store, Customer)>)
    ensures r.Err? <==> forall i :: 0 <= i < |store| ==> store[i].id != data.customerId
    ensures r.Err? ==> r.message == NotFound
    ensures r.Ok? ==> exists i ::
              && 0 <= i < |store| && store[i].id == data.customerId
              && (forall j :: 0 <= j < i ==> store[j].id != data.customerId)
              && r.value.0 == store[i := r.value.1]
              && r.value.1.id == store[i].id
              && r.value.1.email == store[i].email
              && r.value.1.companyName == store[i].companyName
              && r.value.1.createdAt == store[i].createdAt
    ensures r.Ok? ==> r.value.1.currentPlan == Some(plan)
    ensures r.Ok? ==> (r.value.1.status == Trialing <==> plan.freeTrialDays > 0.0)
    ensures r.Ok? ==> (r.value.1.status == Active <==> plan.freeTrialDays <= 0.0)
    ensures r.Ok? ==> (r.value.1.trialEndsAt.Some? <==> plan.freeTrialDays > 0.0)
    ensures r.Ok? && plan.freeTrialDays > 0.0 ==>
              r.value.1.trialEndsAt.value == TimeClip(now as real + plan.freeTrialDays * MsPerDay as real)
  {
    match FirstIndex(store, c => HasId(c, data.customerId))
    case None => Err(NotFound)
    case Some(i) =>
      var trialEndsAt :=
        if plan.freeTrialDays > 0.0 then Some(TimeClip(now as real + plan.freeTrialDays * MsPerDay as real))
        else None;
      var updated := store[i].(currentPlan := Some(plan),
                               status := if plan.freeTrialDays > 0.0 then Trialing else Active,
                               trialEndsAt := trialEndsAt);
      Ok((store[i := updated], updated))
  }

  /** The trial rule is what `StartSubscription` establishes for the customer it updates */
  lemma StartSubscriptionFollowsTrialRule(store: Store, data: StartSubscriptionData, plan: Plan, now: Timestamp)
    requires StartSubscription(store, data, plan, now).Ok?
    ensures FollowsTrialRule(StartSubscription(store, data, plan, now).value.1, now)
  {
  }

  /** Customer ids are the decimal numbers "1" to "n" in store order */
  ghost predicate CanonicalIds(store: Store) {
    forall i :: 0 <= i < |store| ==> store[i].id == Decimal.NatToString(i + 1)
  }

  /** Canonical ids are unique */
  lemma CanonicalIdsUnique(store: Store, i: int, j: int)
    requires CanonicalIds(store)
    requires 0 <= i < |store| && 0 <= j < |store|
    ensures store[i].id == store[j].id <==> i == j
  {
    CanonicalIdsReadBack(store);
  }

  /** Every id of a store numbered "1" to "n" reads back as its position + 1 */
  lemma CanonicalIdsReadBack(store: Store)
    requires CanonicalIds(store)
    ensures forall i :: 0 <= i < |store| ==> Decimal.ParseDecimal(store[i].id) == i + 1
  {
    forall i | 0 <= i < |store|
      ensures Decimal.ParseDecimal(store[i].id) == i + 1
    {
      Decimal.ParsePrinted(i + 1);
    }
  }

  /** In a store numbered "1" to "n" the id `create` hands out next is unused */
  lemma CanonicalNextIdFresh(store: Store)
    requires CanonicalIds(store)
    ensures forall j :: 0 <= j < |store| ==> store[j].id != Decimal.NatToString(|store| + 1)
  {
    CanonicalIdsReadBack(store);
    Decimal.ParsePrinted(|store| + 1);
  }

  /** A store mutation: one call of `create` or `startSubscription` */
  datatype Op =
    | CreateOp(data: CreateCustomerData, now: Timestamp)
    | SubscribeOp(request: StartSubscriptionData, plan: Plan, now: Timestamp)

  /** The store after one call; a failed subscription changes nothing */
  function Apply(store: Store, op: Op): Store {
    match op
    case CreateOp(data, now) => Create(store, data, now).0
    case SubscribeOp(request, plan, now) =>
      match StartSubscription(store, request, plan, now)
      case Ok((s, _)) => s
      case Err(_) => store
  }

  /** The store after a sequence of calls, first call first */
  function Run(store: Store, ops: seq<Op>): Store
    decreases |ops|
  {
    if |ops| == 0 then store else Run(Apply(store, ops[0]), ops[1..])
  }

  lemma ApplyKeepsCanonicalIds(store: Store, op: Op)
    requires CanonicalIds(store)
    ensures CanonicalIds(Apply(store, op))
  {
  }

  /** Every store the program can reach from its initial one has ids "1" to "n",
      hence unique ids */
  lemma {:induction false} RunKeepsCanonicalIds(store: Store, ops: seq<Op>)
    requires CanonicalIds(store)
    ensures CanonicalIds(Run(store, ops))
    decreases |ops|
  {
    if |ops| > 0 {
      ApplyKeepsCanonicalIds(store, ops[0]);
      RunKeepsCanonicalIds(Apply(store, ops[0]), ops[1..]);
    }
  }

  /** The initial store is numbered "1", "2" */
  lemma SeedCanonical()
    ensures CanonicalIds(Seed)
  {
    assert Decimal.NatToString(1) == "1" && Decimal.NatToString(2) == "2";
  }

  lemma ReachableIdsUnique(ops: seq<Op>, i: int, j: int)
    requires 0 <= i < |Run(Seed, ops)| && 0 <= j < |Run(Seed, ops)|
    ensures Run(Seed, ops)[i].id == Run(Seed, ops)[j].id <==> i == j
  {
    SeedCanonical();
    RunKeepsCanonicalIds(Seed, ops);
    CanonicalIdsUnique(Run(Seed, ops), i, j);
  }
}
