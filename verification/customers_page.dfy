/** The customers page's submit handler: create the customer from the contact
    fields, then, when a loaded plan carries the chosen id, start its
    subscription on a copy of that plan. Each store call is one atomic step at
    its own time. */
module CustomersPage {
  import opened Wrappers
  import opened Types
  import opened Seqs
  import CustomersApi
  import CustomerForm
  import Decimal

  /** What one submission leaves behind */
  datatype Outcome = Outcome(
    store: CustomersApi.Store,
    created: Customer,
    subscribedTo: Option<Plan>,
    formOpen: bool)

  /** The first loaded plan whose id is the chosen one; nothing is selected
      when the chosen id is missing or empty (both falsy) or the plan list
      has not loaded */
  function SelectedPlan(plans: Option<seq<Plan>>, planId: Option<string>): (r: Option<Plan>)
    ensures r.Some? <==> (planId.Some? && planId.value != "" && plans.Some?
                          && exists i :: 0 <= i < |plans.value| && plans.value[i].id == planId.value)
    ensures r.Some? ==> exists i ::
              && 0 <= i < |plans.value| && plans.value[i] == r.value && r.value.id == planId.value
              && (forall j :: 0 <= j < i ==> plans.value[j].id != planId.value)
  {
    if planId.Some? && planId.value != "" && plans.Some? then Find(plans.value, (p: Plan) => p.id == planId.value)
    else None
  }

  /** `handleSubmit`: creation always comes first and uses only the contact fields;
      the subscription targets the new customer's id; the dialog closes only when
      every call succeeds */
  function HandleSubmit(
    store: CustomersApi.Store, plans: Option<seq<Plan>>, data: CustomerForm.Values,
    createdAt: Timestamp, subscribedAt: Timestamp): (r: Outcome)
    ensures r.created == CustomersApi.Create(store, CreateCustomerData(data.email, data.companyName), createdAt).1
    ensures r.subscribedTo == SelectedPlan(plans, data.planId)
    ensures r.subscribedTo.None? ==> r.store == store + [r.created] && !r.formOpen
    ensures r.subscribedTo.Some? ==>
              var request := StartSubscriptionData(r.created.id, data.planId.value);
              var started := CustomersApi.StartSubscription(store + [r.created], request, r.subscribedTo.value, subscribedAt);
              r.formOpen == started.Err? && (started.Ok? ==> r.store == started.value.0)
  {
    var (s1, created) := CustomersApi.Create(store, CreateCustomerData(data.email, data.companyName), createdAt);
    match SelectedPlan(plans, data.planId)
    case None => Outcome(s1, created, None, false)
    case Some(plan) =>
      match CustomersApi.StartSubscription(s1, StartSubscriptionData(created.id, data.planId.value), plan, subscribedAt)
      case Ok((s2, _)) => Outcome(s2, created, Some(plan), false)
      case Err(_) => Outcome(s1, created, Some(plan), true)
  }

  /** The subscription cannot miss: the customer just created carries the id it
      is started for, so the dialog always closes */
  lemma SubmitAlwaysCloses(
    store: CustomersApi.Store, plans: Option<seq<Plan>>, data: CustomerForm.Values,
    createdAt: Timestamp, subscribedAt: Timestamp)
    ensures !HandleSubmit(store, plans, data, createdAt, subscribedAt).formOpen
  {
    var r := HandleSubmit(store, plans, data, createdAt, subscribedAt);
    assert r.store[|store|] == r.created || r.subscribedTo.Some?;
    if r.subscribedTo.Some? {
      var s1 := store + [r.created];
      assert s1[|store|].id == r.created.id;
    }
  }

  /** Without a usable plan choice the new customer is active, with no plan and no
      trial, and no other customer changes */
  lemma NoPlanLeavesCustomerActive(
    store: CustomersApi.Store, plans: Option<seq<Plan>>, data: CustomerForm.Values,
    createdAt: Timestamp, subscribedAt: Timestamp)
    requires SelectedPlan(plans, data.planId).None?
    ensures var r := HandleSubmit(store, plans, data, createdAt, subscribedAt);
            && r.store[..|store|] == store
            && r.store[|store|].status == Active
            && r.store[|store|].currentPlan.None?
            && r.store[|store|].trialEndsAt.None?
  {
  }

  /** In a store whose ids are "1" to "n" the subscription lands on the new
      customer: it carries the contact fields, a copy of the chosen plan and the
      trial rule, and every earlier customer is unchanged */
  lemma SubscriptionTargetsNewCustomer(
    store: CustomersApi.Store, plans: Option<seq<Plan>>, data: CustomerForm.Values,
    createdAt: Timestamp, subscribedAt: Timestamp)
    requires CustomersApi.CanonicalIds(store)
    requires SelectedPlan(plans, data.planId).Some?
    ensures var r := HandleSubmit(store, plans, data, createdAt, subscribedAt);
            && |r.store| == |store| + 1
            && r.store[..|store|] == store
            && r.store[|store|].email == data.email
            && r.store[|store|].companyName == data.companyName
            && r.store[|store|].createdAt == createdAt
            && r.store[|store|].currentPlan == SelectedPlan(plans, data.planId)
            && CustomersApi.FollowsTrialRule(r.store[|store|], subscribedAt)
  {
    var r := HandleSubmit(store, plans, data, createdAt, subscribedAt);
    var s1 := store + [r.created];
    var plan := SelectedPlan(plans, data.planId).value;
    var request := StartSubscriptionData(r.created.id, data.planId.value);
    var started := CustomersApi.StartSubscription(s1, request, plan, subscribedAt);
    assert s1[|store|].id == r.created.id;
    assert started.Ok?;
    CustomersApi.CanonicalNextIdFresh(store);
    var i :| 0 <= i < |s1| && s1[i].id == request.customerId && r.store == s1[i := started.value.1]
             && (forall j :: 0 <= j < i ==> s1[j].id != request.customerId);
    assert i == |store|;
    CustomersApi.StartSubscriptionFollowsTrialRule(s1, request, plan, subscribedAt);
  }

  /** `isFormLoading`: the form is busy while either store call is pending */
  predicate FormBusy(createPending: bool, subscribePending: bool) {
    createPending || subscribePending
  }
}
