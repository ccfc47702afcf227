/** `Store` (script.js:98-170): one profile's plans and history, kept in memory
    and written through to its scoped localStorage keys, plus the live-workout
    snapshot key. */
module DataStore {
  import opened Wrappers
  import opened Records
  import opened Lists
  import opened LocalStorage

  class Store {
    const profileId: string
    const storage: Storage
    var plans: seq<Plan>
    var history: seq<WorkoutLog>

    /** The lists in memory are the ones a fresh `Store` (a reload) would read. */
    predicate Synced()
      reads this, storage
    {
      plans == LoadPlans(storage.items, PlansKey(profileId)) &&
      history == LoadLogs(storage.items, HistoryKey(profileId))
    }

    /** `constructor` and `init`: read both lists, `[]` for a missing key. */
    constructor (profileId: string, storage: Storage)
      ensures this.profileId == profileId && this.storage == storage
      ensures plans == LoadPlans(storage.items, PlansKey(profileId))
      ensures history == LoadLogs(storage.items, HistoryKey(profileId))
      ensures Synced()
    {
      this.profileId := profileId;
      this.storage := storage;
      plans := LoadPlans(storage.items, PlansKey(profileId));
      history := LoadLogs(storage.items, HistoryKey(profileId));
    }

    /** `getActiveWorkout`: the stored snapshot, None for null. */
    function GetActiveWorkout(): Option<Workout>
      reads storage
    {
      LoadSnapshot(storage.items, ActiveWorkoutKey(profileId))
    }

    /** `getPlan`: the first plan with the id. */
    function GetPlan(id: string): (r: Option<Plan>)
      reads this
      ensures r.Some? ==> r.value in plans && r.value.id == id
      ensures r.Some? ==> exists k :: 0 <= k < |plans| && plans[k] == r.value && forall j :: 0 <= j < k ==> plans[j].id != id
      ensures r.None? <==> forall j :: 0 <= j < |plans| ==> plans[j].id != id
    {
      Find(plans, PlanId, id)
    }

    method SaveActiveWorkout(w: Workout)
      requires Synced()
      modifies storage
      ensures Synced()
      ensures storage.items == old(storage.items)[ActiveWorkoutKey(profileId) := Snapshot(Serialize(w))]
      ensures GetActiveWorkout() == Some(Serialize(w))
    {
      storage.SetItem(ActiveWorkoutKey(profileId), Snapshot(Serialize(w)));
    }

    method ClearActiveWorkout()
      requires Synced()
      modifies storage
      ensures Synced()
      ensures storage.items == old(storage.items) - {ActiveWorkoutKey(profileId)}
      ensures GetActiveWorkout() == None
    {
      storage.RemoveItem(ActiveWorkoutKey(profileId));
    }

    method SavePlans()
      modifies storage
      ensures plans == LoadPlans(storage.items, PlansKey(profileId))
      ensures LoadLogs(storage.items, HistoryKey(profileId)) == old(LoadLogs(storage.items, HistoryKey(profileId)))
      ensures storage.items == old(storage.items)[PlansKey(profileId) := PlanList(plans)]
    {
      storage.SetItem(PlansKey(profileId), PlanList(plans));
    }

    method SaveHistory()
      modifies storage
      ensures history == LoadLogs(storage.items, HistoryKey(profileId))
      ensures LoadPlans(storage.items, PlansKey(profileId)) == old(LoadPlans(storage.items, PlansKey(profileId)))
      ensures storage.items == old(storage.items)[HistoryKey(profileId) := LogList(history)]
    {
      storage.SetItem(HistoryKey(profileId), LogList(history));
    }

    method AddPlan(plan: Plan)
      requires Synced()
      modifies this, storage
      ensures Synced()
      ensures plans == old(plans) + [plan] && history == old(history)
      ensures storage.items == old(storage.items)[PlansKey(profileId) := PlanList(plans)]
    {
      plans := plans + [plan];
      SavePlans();
    }

    /** Replaces the first plan with the same id; nothing is written when there is none. */
    method UpdatePlan(updated: Plan)
      requires Synced()
      modifies this, storage
      ensures Synced()
      ensures plans == ReplaceFirst(old(plans), PlanId, updated) && history == old(history)
      ensures FirstIndex(old(plans), PlanId, updated.id).None? ==> storage.items == old(storage.items)
      ensures FirstIndex(old(plans), PlanId, updated.id).Some? ==>
        storage.items == old(storage.items)[PlansKey(profileId) := PlanList(plans)]
    {
      var index := FirstIndex(plans, PlanId, updated.id);
      if index.Some? {
        plans := plans[index.value := updated];
        SavePlans();
      }
    }

    method DeletePlan(planId: string)
      requires Synced()
      modifies this, storage
      ensures Synced()
      ensures plans == RemoveKey(old(plans), PlanId, planId) && history == old(history)
      ensures storage.items == old(storage.items)[PlansKey(profileId) := PlanList(plans)]
    {
      plans := RemoveKey(plans, PlanId, planId);
      SavePlans();
    }

    /** `unshift`: the new log becomes the head, the older ones follow in order. */
    method AddWorkoutLog(log: WorkoutLog)
      requires Synced()
      modifies this, storage
      ensures Synced()
      ensures history == [log] + old(history) && plans == old(plans)
      ensures storage.items == old(storage.items)[HistoryKey(profileId) := LogList(history)]
    {
      history := [log] + history;
      SaveHistory();
    }

    method DeleteWorkoutLog(id: string)
      requires Synced()
      modifies this, storage
      ensures Synced()
      ensures history == RemoveKey(old(history), LogId, id) && plans == old(plans)
      ensures storage.items == old(storage.items)[HistoryKey(profileId) := LogList(history)]
    {
      history := RemoveKey(history, LogId, id);
      SaveHistory();
    }

    method ClearData()
      requires Synced()
      modifies this, storage
      ensures Synced()
      ensures plans == [] && history == []
      ensures storage.items == old(storage.items)[PlansKey(profileId) := PlanList([])][HistoryKey(profileId) := LogList([])]
    {
      plans := [];
      history := [];
      SavePlans();
      SaveHistory();
    }
  }
}
