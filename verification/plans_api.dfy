/** The in-memory plan store: a sequence of plans in insertion order, with the
    list, create, update and delete operations of the mock API. Each operation
    takes the store and returns the new store; the call time is a parameter. */
module PlansApi {
  import opened Wrappers
  import opened Types
  import opened Seqs
  import Decimal

  type Store = seq<Plan>

  /** 2024-01-15T10:00:00Z */
  const SeedCreatedAt: Timestamp := 1705312800000

  /** The store's contents when the program starts */
  const Seed: Store := [
    Plan("1", "Starter", Monthly, 29.0, Some(0.1), 14.0, SeedCreatedAt),
    Plan("2", "Professional", Monthly, 99.0, Some(0.05), 14.0, SeedCreatedAt),
    Plan("3", "Enterprise", Yearly, 999.0, None, 30.0, SeedCreatedAt)
  ]

  const NotFound := "Plan not found"

  /** The store starts with three plans numbered "1" to "3" in that order */
  lemma SeedShape()
    ensures |Seed| == 3
    ensures Seed[0].id == "1" && Seed[1].id == "2" && Seed[2].id == "3"
    ensures Seed[0].name == "Starter" && Seed[1].name == "Professional" && Seed[2].name == "Enterprise"
  {
  }

  /** `getAll`: the stored plans, oldest first */
  function GetAll(store: Store): Store {
    store
  }

  /** `create`: appends a plan built from `data`, numbered one past the current length */
  function Create(store: Store, data: CreatePlanData, now: Timestamp): (r: (Store, Plan))
    ensures |r.0| == |store| + 1
    ensures r.0[..|store|] == store
    ensures r.1 == r.0[|store|]
    ensures r.1.id == Decimal.NatToString(|store| + 1)
    ensures DataOf(r.1) == data
    ensures r.1.createdAt == now
  {
    var plan := Plan(Decimal.NatToString(|store| + 1), data.name, data.interval, data.basePrice,
                     data.usageRate, data.freeTrialDays, now);
    (store + [plan], plan)
  }

  /** `{ ...plan, ...patch }`: supplied properties replace the plan's, omitted
      ones are kept, and `id` and `createdAt` cannot be supplied */
  function Merge(p: Plan, patch: PlanPatch): (r: Plan)
    ensures r.id == p.id && r.createdAt == p.createdAt
    ensures patch.name.None? ==> r.name == p.name
    ensures patch.name.Some? ==> r.name == patch.name.value
    ensures patch.interval.None? ==> r.interval == p.interval
    ensures patch.interval.Some? ==> r.interval == patch.interval.value
    ensures patch.basePrice.None? ==> r.basePrice == p.basePrice
    ensures patch.basePrice.Some? ==> r.basePrice == patch.basePrice.value
    ensures patch.usageRate.None? ==> r.usageRate == p.usageRate
    ensures patch.usageRate.Some? ==> r.usageRate == patch.usageRate.value
    ensures patch.freeTrialDays.None? ==> r.freeTrialDays == p.freeTrialDays
    ensures patch.freeTrialDays.Some? ==> r.freeTrialDays == patch.freeTrialDays.value
  {
    p.(name := patch.name.GetOr(p.name),
       interval := patch.interval.GetOr(p.interval),
       basePrice := patch.basePrice.GetOr(p.basePrice),
       usageRate := patch.usageRate.GetOr(p.usageRate),
       freeTrialDays := patch.freeTrialDays.GetOr(p.freeTrialDays))
  }

  /** Merging nothing changes nothing; merging a complete payload makes the
      plan's editable fields equal to that payload */
  lemma MergeEmptyAndFull(p: Plan, d: CreatePlanData)
    ensures Merge(p, EmptyPatch) == p
    ensures DataOf(Merge(p, PatchOf(d))) == d
  {
  }

  predicate HasId(p: Plan, id: string) {
    p.id == id
  }

  /** `i` is the first position of a plan carrying `id` */
  predicate FirstWithId(store: Store, id: string, i: int) {
    0 <= i < |store| && store[i].id == id && forall j :: 0 <= j < i ==> store[j].id != id
  }

  /** `update`: merges `patch` into the first plan carrying `id`, or fails with
      "Plan not found" */
  function Update(store: Store, id: string, patch: PlanPatch): (r: Result<(Store, Plan)>)
    ensures r.Err? <==> forall i :: 0 <= i < |store| ==> store[i].id != id
    ensures r.Err? ==> r.message == NotFound
    ensures r.Ok? ==> |r.value.0| == |store|
    ensures r.Ok? ==> forall i :: FirstWithId(store, id, i) ==>
              r.value.0[i] == Merge(store[i], patch) && r.value.1 == r.value.0[i]
    ensures r.Ok? ==> forall i :: 0 <= i < |store| && !FirstWithId(store, id, i) ==> r.value.0[i] == store[i]
  {
    match FirstIndex(store, p => HasId(p, id))
    case None => Err(NotFound)
    case Some(i) =>
      var updated := Merge(store[i], patch);
      assert forall k :: FirstWithId(store, id, k) ==> k == i;
      Ok((store[i := updated], updated))
  }

  /** `delete`: drops every plan carrying `id`; absent ids are not an error */
  function Delete(store: Store, id: string): Store {
    Filter(store, p => !HasId(p, id))
  }

  /** Deletion removes exactly the plans with that id, keeps every copy of every
      other plan, and keeps their order */
  lemma DeleteRemovesExactly(store: Store, id: string, p: Plan)
    ensures p in Delete(store, id) <==> p in store && p.id != id
    ensures multiset(Delete(store, id))[p] == if p.id == id then 0 else multiset(store)[p]
    ensures IsSubsequence(Delete(store, id), store)
  {
    FilterMembership(store, p => !HasId(p, id), p);
    FilterCount(store, p => !HasId(p, id), p);
    FilterIsSubsequence(store, p => !HasId(p, id));
  }

  /** Deleting twice is deleting once */
  lemma DeleteIdempotent(store: Store, id: string)
    ensures Delete(Delete(store, id), id) == Delete(store, id)
  {
    FilterIdempotent(store, p => !HasId(p, id));
  }

  /** Deleting an id nobody carries leaves the store as it was */
  lemma DeleteAbsent(store: Store, id: string)
    requires forall i :: 0 <= i < |store| ==> store[i].id != id
    ensures Delete(store, id) == store
  {
    FilterKeepsAll(store, p => !HasId(p, id));
  }

  /** Ids are derived from the length, so a creation after a deletion can reuse
      a live id: deleting "1" from the initial store and then creating a plan
      yields two plans numbered "3", and a later update of "3" reaches the older
      one, never the plan just created. */
  lemma IdReusedAfterDelete(data: CreatePlanData, now: Timestamp, patch: PlanPatch)
    ensures var (s, created) := Create(Delete(Seed, "1"), data, now);
            && |s| == 3
            && created.id == "3" && s[1].id == "3" && s[1].name == "Enterprise"
            && Update(s, "3", patch) == Ok((s[1 := Merge(s[1], patch)], Merge(s[1], patch)))
  {
    var s1 := Delete(Seed, "1");
    assert s1 == Delete(Seed[1..], "1");
    DeleteAbsent(Seed[1..], "1");
    var (s, created) := Create(s1, data, now);
    assert Decimal.NatToString(3) == "3";
  }
}
