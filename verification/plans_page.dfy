/** The plans page's dialog: whether it is open and which plan, if any, it
    edits, and how submit, cancel and delete act on it and on the plan store.
    Store failures are swallowed by the page (the notification is shown
    elsewhere), so a failed call leaves everything as it was. */
module PlansPage {
  import opened Wrappers
  import opened Types
  import PlansApi
  import Seqs
  import Decimal

  /** `isFormOpen` and `editingPlan` */
  datatype Dialog = Dialog(isFormOpen: bool, editingPlan: Option<Plan>)

  const Closed := Dialog(false, None)

  /** `handleCreate`: open the dialog in create mode */
  function HandleCreate(d: Dialog): (r: Dialog)
    ensures r.isFormOpen && r.editingPlan.None?
  {
    Dialog(true, None)
  }

  /** `handleEdit`: open the dialog editing a snapshot of `plan` */
  function HandleEdit(d: Dialog, plan: Plan): (r: Dialog)
    ensures r.isFormOpen && r.editingPlan == Some(plan)
  {
    Dialog(true, Some(plan))
  }

  /** `handleCancel`: close the dialog and leave edit mode */
  function HandleCancel(d: Dialog): (r: Dialog)
    ensures r == Closed
  {
    Closed
  }

  /** The dialog's own open/close requests only change whether it is open */
  function HandleOpenChange(d: Dialog, open: bool): (r: Dialog)
    ensures r.isFormOpen == open && r.editingPlan == d.editingPlan
  {
    d.(isFormOpen := open)
  }

  /** The store call a submission makes: an update of the edited plan's id with
      the whole form payload, or a creation */
  function Mutation(d: Dialog, store: PlansApi.Store, data: CreatePlanData, now: Timestamp)
    : Result<PlansApi.Store>
  {
    match d.editingPlan
    case Some(p) =>
      (match PlansApi.Update(store, p.id, PatchOf(data))
       case Ok((s, _)) => Ok(s)
       case Err(m) => Err(m))
    case None => Ok(PlansApi.Create(store, data, now).0)
  }

  /** `handleSubmit`: a successful call closes the dialog and leaves edit mode;
      a failed one changes neither the dialog nor the store */
  function HandleSubmit(d: Dialog, store: PlansApi.Store, data: CreatePlanData, now: Timestamp)
    : (r: (Dialog, PlansApi.Store))
    ensures d.editingPlan.None? ==>
              && r.0 == Closed
              && |r.1| == |store| + 1 && r.1[..|store|] == store
              && DataOf(r.1[|store|]) == data
              && r.1[|store|].id == Decimal.NatToString(|store| + 1)
              && r.1[|store|].createdAt == now
    ensures d.editingPlan.Some? && (forall i :: 0 <= i < |store| ==> store[i].id != d.editingPlan.value.id) ==>
              r == (d, store)
    ensures d.editingPlan.Some? && (exists i :: 0 <= i < |store| && store[i].id == d.editingPlan.value.id) ==>
              && r.0 == Closed
              && |r.1| == |store|
              && exists i ::
                   && 0 <= i < |store| && store[i].id == d.editingPlan.value.id
                   && (forall j :: 0 <= j < i ==> store[j].id != d.editingPlan.value.id)
                   && DataOf(r.1[i]) == data
                   && r.1[i].id == store[i].id && r.1[i].createdAt == store[i].createdAt
                   && (forall j :: 0 <= j < |store| && j != i ==> r.1[j] == store[j])
  {
    match Mutation(d, store, data, now)
    case Ok(s) => (Closed, s)
    case Err(_) => (d, store)
  }

  /** `handleDelete`: the store loses every plan with that id; the dialog is untouched */
  function HandleDelete(d: Dialog, store: PlansApi.Store, id: string): (r: (Dialog, PlansApi.Store))
    ensures r.0 == d
    ensures forall p :: p in r.1 <==> p in store && p.id != id
    ensures forall p :: multiset(r.1)[p] == if p.id == id then 0 else multiset(store)[p]
    ensures Seqs.IsSubsequence(r.1, store)
  {
    var s := PlansApi.Delete(store, id);
    assert forall p :: (p in s <==> p in store && p.id != id)
                       && multiset(s)[p] == (if p.id == id then 0 else multiset(store)[p]) by {
      forall p {
        PlansApi.DeleteRemovesExactly(store, id, p);
      }
    }
    Seqs.FilterIsSubsequence(store, p => !PlansApi.HasId(p, id));
    (d, s)
  }

  /** The button that opened the dialog decides the call, whatever state the
      dialog was in before: after "New Plan" a submission creates, even if an
      edit was abandoned earlier; after "Edit" it updates the chosen plan's id */
  lemma OpeningButtonDecidesCall(d: Dialog, plan: Plan, store: PlansApi.Store, data: CreatePlanData, now: Timestamp)
    ensures HandleSubmit(HandleCreate(d), store, data, now) == (Closed, PlansApi.Create(store, data, now).0)
    ensures PlansApi.Update(store, plan.id, PatchOf(data)).Ok? ==>
              HandleSubmit(HandleEdit(d, plan), store, data, now)
                == (Closed, PlansApi.Update(store, plan.id, PatchOf(data)).value.0)
    ensures PlansApi.Update(store, plan.id, PatchOf(data)).Err? ==>
              HandleSubmit(HandleEdit(d, plan), store, data, now) == (Dialog(true, Some(plan)), store)
  {
  }

  /** Editing a plan that was deleted while the dialog was open fails: the dialog
      stays open on that plan and the store keeps its contents */
  lemma EditOfDeletedPlanKeepsDialog(store: PlansApi.Store, plan: Plan, data: CreatePlanData, now: Timestamp)
    ensures var (d1, s1) := HandleDelete(HandleEdit(Closed, plan), store, plan.id);
            HandleSubmit(d1, s1, data, now) == (Dialog(true, Some(plan)), s1)
  {
    var (d1, s1) := HandleDelete(HandleEdit(Closed, plan), store, plan.id);
    forall i | 0 <= i < |s1|
      ensures s1[i].id != plan.id
    {
      assert s1[i] in s1;
    }
  }
}
