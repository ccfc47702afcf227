/** The workout-session half of `App` (script.js:705-986) and its plan save
    (script.js:652-694). The page's workout cards are taken to be the rendering
    of the live workout, `View()`; a page edit is a new list of cards that
    `saveWorkoutState` scrapes back into the workout and writes to the snapshot. */
module Application {
  import opened Wrappers
  import opened Records
  import opened Lists
  import opened LocalStorage
  import opened DataStore
  import opened Session
  import opened PlanEditor

  class App {
    const store: Store
    var currentWorkout: Option<Workout>

    predicate Valid()
      reads this, store, store.storage
    {
      store.Synced()
    }

    constructor (store: Store)
      requires store.Synced()
      ensures this.store == store && currentWorkout.None? && Valid()
    {
      this.store := store;
      currentWorkout := None;
    }

    /** The workout cards on the page: what `renderWorkoutView` draws for the
        live workout, nothing when there is none. */
    function View(): (cards: seq<Card>)
      reads this
      ensures currentWorkout.None? ==> cards == []
    {
      if currentWorkout.Some? then RenderCards(currentWorkout.value.exercises) else []
    }

    /** Opens a fresh session on the plan's exercises and stores its snapshot;
        an unknown plan id changes nothing. */
    method StartWorkout(planId: string, now: int)
      requires Valid()
      modifies this, store.storage
      ensures Valid()
      ensures store.GetPlan(planId).None? ==>
        currentWorkout == old(currentWorkout) && store.storage.items == old(store.storage.items)
      ensures store.GetPlan(planId).Some? ==>
        var plan := store.GetPlan(planId).value;
        currentWorkout == Some(Workout(plan.id, plan.name, AsDate(now), FromPlan(plan.exercises))) &&
        store.storage.items == old(store.storage.items)[ActiveWorkoutKey(store.profileId) := Snapshot(Serialize(currentWorkout.value))] &&
        store.GetActiveWorkout() == Some(Serialize(currentWorkout.value))
    {
      var found := store.GetPlan(planId);
      if found.Some? {
        var plan := found.value;
        currentWorkout := Some(Workout(plan.id, plan.name, AsDate(now), FromPlan(plan.exercises)));
        store.SaveActiveWorkout(currentWorkout.value);
      }
    }

    /** Takes a stored snapshot back as the live workout, its start time a `Date` again. */
    method ResumeWorkout(saved: Workout)
      requires Valid()
      modifies this
      ensures Valid()
      ensures currentWorkout == Some(Revive(saved))
      ensures currentWorkout.value.planId == saved.planId && currentWorkout.value.planName == saved.planName
      ensures currentWorkout.value.exercises == saved.exercises && currentWorkout.value.startTime.AsDate?
    {
      currentWorkout := Some(Revive(saved));
    }

    /** Seeds a session from a logged workout: one exercise per logged exercise,
        pre-filled with its sets; an unknown log id changes nothing. */
    method RedoWorkout(logId: string, newId: nat -> string, now: int)
      requires Valid()
      modifies this, store.storage
      ensures Valid()
      ensures Find(store.history, LogId, logId).None? ==>
        currentWorkout == old(currentWorkout) && store.storage.items == old(store.storage.items)
      ensures Find(store.history, LogId, logId).Some? ==>
        var log := Find(store.history, LogId, logId).value;
        currentWorkout == Some(Workout(RedoPlanId(log.planId), log.planName, AsDate(now), RedoExercises(log.exercises, newId))) &&
        store.storage.items == old(store.storage.items)[ActiveWorkoutKey(store.profileId) := Snapshot(Serialize(currentWorkout.value))]
    {
      var found := Find(store.history, LogId, logId);
      if found.Some? {
        var log := found.value;
        currentWorkout := Some(Workout(RedoPlanId(log.planId), log.planName, AsDate(now), RedoExercises(log.exercises, newId)));
        store.SaveActiveWorkout(currentWorkout.value);
      }
    }

    /** The body of `saveWorkoutState` for the cards now on the page: the workout's
        exercises become the scraped cards, and the workout is written to the snapshot. */
    method SaveCards(cards: seq<Card>)
      requires Valid() && currentWorkout.Some?
      modifies this, store.storage
      ensures Valid()
      ensures currentWorkout.Some? && currentWorkout.value == old(currentWorkout.value).(exercises := currentWorkout.value.exercises)
      ensures |currentWorkout.value.exercises| == |cards|
      ensures forall i :: 0 <= i < |cards| ==> currentWorkout.value.exercises[i] == Scraped(cards[i])
      ensures View() == cards
      ensures store.storage.items == old(store.storage.items)[ActiveWorkoutKey(store.profileId) := Snapshot(Serialize(currentWorkout.value))]
      ensures store.GetActiveWorkout() == Some(Serialize(currentWorkout.value))
    {
      var exercises := ScrapeCards(cards);
      currentWorkout := Some(currentWorkout.value.(exercises := exercises));
      store.SaveActiveWorkout(currentWorkout.value);
    }

    /** `saveWorkoutState`: nothing without a live workout; otherwise the page is
        scraped, which leaves what it shows unchanged, and persisted. */
    method SaveWorkoutState()
      requires Valid()
      modifies this, store.storage
      ensures Valid()
      ensures old(currentWorkout).None? ==>
        currentWorkout.None? && store.storage.items == old(store.storage.items)
      ensures old(currentWorkout).Some? ==>
        currentWorkout.Some? && View() == old(View()) &&
        currentWorkout.value.planId == old(currentWorkout.value.planId) &&
        currentWorkout.value.planName == old(currentWorkout.value.planName) &&
        currentWorkout.value.startTime == old(currentWorkout.value.startTime) &&
        |currentWorkout.value.exercises| == |old(View())| &&
        (forall i :: 0 <= i < |old(View())| ==> currentWorkout.value.exercises[i] == Scraped(old(View())[i])) &&
        store.GetActiveWorkout() == Some(Serialize(currentWorkout.value)) &&
        store.storage.items == old(store.storage.items)[ActiveWorkoutKey(store.profileId) := Snapshot(Serialize(currentWorkout.value))]
    {
      if currentWorkout.Some? {
        SaveCards(View());
      }
    }

    /** Typing into a set's weight or reps field (the input listeners of
        script.js:827-829 and 924), followed by `saveWorkoutState`. */
    method EnterSetValues(card: nat, row: nat, weight: Option<real>, reps: Option<real>)
      requires Valid() && card < |View()| && row < |View()[card].rows|
      modifies this, store.storage
      ensures Valid() && currentWorkout.Some?
      ensures var c := old(View())[card];
        View() == old(View())[card := c.(rows := c.rows[row := c.rows[row].(weight := weight, reps := reps)])]
      ensures currentWorkout.value == old(currentWorkout.value).(exercises := currentWorkout.value.exercises)
      ensures |currentWorkout.value.exercises| == |View()|
      ensures forall i :: 0 <= i < |View()| ==> currentWorkout.value.exercises[i] == Scraped(View()[i])
      ensures store.storage.items == old(store.storage.items)[ActiveWorkoutKey(store.profileId) := Snapshot(Serialize(currentWorkout.value))]
      ensures store.GetActiveWorkout() == Some(Serialize(currentWorkout.value))
    {
      var c := View()[card];
      SaveCards(View()[card := c.(rows := c.rows[row := c.rows[row].(weight := weight, reps := reps)])]);
    }

    /** `toggleSetComplete`: flips the row's tick, then `saveWorkoutState`. */
    method ToggleSetComplete(card: nat, row: nat)
      requires Valid() && card < |View()| && row < |View()[card].rows|
      modifies this, store.storage
      ensures Valid() && currentWorkout.Some?
      ensures var c := old(View())[card];
        View() == old(View())[card := c.(rows := c.rows[row := c.rows[row].(completed := !c.rows[row].completed)])]
      ensures currentWorkout.value == old(currentWorkout.value).(exercises := currentWorkout.value.exercises)
      ensures |currentWorkout.value.exercises| == |View()|
      ensures forall i :: 0 <= i < |View()| ==> currentWorkout.value.exercises[i] == Scraped(View()[i])
      ensures store.storage.items == old(store.storage.items)[ActiveWorkoutKey(store.profileId) := Snapshot(Serialize(currentWorkout.value))]
      ensures store.GetActiveWorkout() == Some(Serialize(currentWorkout.value))
    {
      var c := View()[card];
      SaveCards(View()[card := c.(rows := c.rows[row := c.rows[row].(completed := !c.rows[row].completed)])]);
    }

    /** `removeSet`: deletes the row, then `saveWorkoutState`. */
    method RemoveSet(card: nat, row: nat)
      requires Valid() && card < |View()| && row < |View()[card].rows|
      modifies this, store.storage
      ensures Valid() && currentWorkout.Some?
      ensures var c := old(View())[card];
        View() == old(View())[card := c.(rows := c.rows[..row] + c.rows[row + 1..])]
      ensures |View()[card].rows| == |old(View())[card].rows| - 1
      ensures currentWorkout.value == old(currentWorkout.value).(exercises := currentWorkout.value.exercises)
      ensures |currentWorkout.value.exercises| == |View()|
      ensures forall i :: 0 <= i < |View()| ==> currentWorkout.value.exercises[i] == Scraped(View()[i])
      ensures store.storage.items == old(store.storage.items)[ActiveWorkoutKey(store.profileId) := Snapshot(Serialize(currentWorkout.value))]
      ensures store.GetActiveWorkout() == Some(Serialize(currentWorkout.value))
    {
      var c := View()[card];
      SaveCards(View()[card := c.(rows := c.rows[..row] + c.rows[row + 1..])]);
    }

    /** `addSetToExercise`: appends an empty, unticked row, then `saveWorkoutState`. */
    method AddSetToExercise(card: nat)
      requires Valid() && card < |View()|
      modifies this, store.storage
      ensures Valid() && currentWorkout.Some?
      ensures var c := old(View())[card];
        View() == old(View())[card := c.(rows := c.rows + [BlankSet])]
      ensures currentWorkout.value == old(currentWorkout.value).(exercises := currentWorkout.value.exercises)
      ensures |currentWorkout.value.exercises| == |View()|
      ensures forall i :: 0 <= i < |View()| ==> currentWorkout.value.exercises[i] == Scraped(View()[i])
      ensures store.storage.items == old(store.storage.items)[ActiveWorkoutKey(store.profileId) := Snapshot(Serialize(currentWorkout.value))]
      ensures store.GetActiveWorkout() == Some(Serialize(currentWorkout.value))
    {
      var c := View()[card];
      SaveCards(View()[card := c.(rows := c.rows + [BlankSet])]);
    }

    /** `finishWorkout`: logs the page's numeric sets at the head of the history
        when some exercise kept one, then clears the snapshot and the live workout. */
    method FinishWorkout(logId: string, now: int)
      requires Valid()
      modifies this, store, store.storage
      ensures Valid()
      ensures currentWorkout.None?
      ensures store.plans == old(store.plans)
      ensures old(currentWorkout).None? ==>
        store.history == old(store.history) && store.storage.items == old(store.storage.items)
      ensures old(currentWorkout).Some? ==>
        var log := MakeLog(logId, old(currentWorkout.value), now, old(View()));
        store.GetActiveWorkout().None? &&
        (log.exercises != [] ==>
          store.history == [log] + old(store.history) &&
          store.storage.items == old(store.storage.items)[HistoryKey(store.profileId) := LogList(store.history)] - {ActiveWorkoutKey(store.profileId)}) &&
        (log.exercises == [] ==>
          store.history == old(store.history) &&
          store.storage.items == old(store.storage.items) - {ActiveWorkoutKey(store.profileId)})
    {
      if currentWorkout.None? {
        return;
      }
      var w := currentWorkout.value;
      var exercises := FinishedExercises(View());
      var log := WorkoutLog(logId, w.planId, w.planName, now, DurationMinutes(w.startTime, now), exercises);
      if |log.exercises| > 0 {
        store.AddWorkoutLog(log);
      }
      store.ClearActiveWorkout();
      currentWorkout := None;
    }

    /** `finishActiveWorkoutFromHome`: finishes the stored snapshot as it is. Its
        start time is still text, so the log's duration is NaN (None). */
    method FinishActiveWorkoutFromHome(logId: string, now: int)
      requires Valid()
      modifies this, store, store.storage
      ensures Valid()
      ensures store.plans == old(store.plans)
      ensures old(store.GetActiveWorkout()).None? ==>
        currentWorkout == old(currentWorkout) && store.history == old(store.history) &&
        store.storage.items == old(store.storage.items)
      ensures old(store.GetActiveWorkout()).Some? ==>
        var active := old(store.GetActiveWorkout()).value;
        var log := MakeLog(logId, active, now, RenderCards(active.exercises));
        currentWorkout.None? && store.GetActiveWorkout().None? &&
        (log.exercises != [] ==>
          store.history == [log] + old(store.history) &&
          store.storage.items == old(store.storage.items)[HistoryKey(store.profileId) := LogList(store.history)] - {ActiveWorkoutKey(store.profileId)}) &&
        (log.exercises == [] ==>
          store.history == old(store.history) &&
          store.storage.items == old(store.storage.items) - {ActiveWorkoutKey(store.profileId)})
      ensures (old(store.GetActiveWorkout()).Some? && old(store.GetActiveWorkout()).value.startTime.AsText? &&
               store.history != old(store.history)) ==> store.history[0].duration.None?
    {
      var active := store.GetActiveWorkout();
      if active.Some? {
        currentWorkout := active;
        FinishWorkout(logId, now);
      }
    }

    /** `discardWorkout`: once confirmed, drops the snapshot and the live workout;
        nothing is logged. */
    method DiscardWorkout(confirmed: bool)
      requires Valid()
      modifies this, store.storage
      ensures Valid()
      ensures store.history == old(store.history) && store.plans == old(store.plans)
      ensures !confirmed ==> currentWorkout == old(currentWorkout) && store.storage.items == old(store.storage.items)
      ensures confirmed ==>
        currentWorkout.None? && store.GetActiveWorkout().None? &&
        store.storage.items == old(store.storage.items) - {ActiveWorkoutKey(store.profileId)}
    {
      if confirmed {
        store.ClearActiveWorkout();
        currentWorkout := None;
      }
    }

    /** `saveCurrentPlan`: validates the editor and adds or updates the plan; an
        alert leaves the store as it was. */
    method SaveCurrentPlan(nameInput: string, rows: seq<EditorRow>, editingId: Option<string>,
                           newPlanId: string, exerciseId: nat -> string, now: int)
      returns (outcome: Result<PlanSave, PlanError>)
      requires Valid()
      modifies store, store.storage
      ensures Valid()
      ensures outcome == ValidatePlan(nameInput, rows, editingId, newPlanId, exerciseId, now)
      ensures store.history == old(store.history)
      ensures outcome.Err? ==> store.plans == old(store.plans) && store.storage.items == old(store.storage.items)
      ensures outcome.Ok? && outcome.value.AddPlan? ==>
        store.plans == old(store.plans) + [outcome.value.plan] &&
        store.storage.items == old(store.storage.items)[PlansKey(store.profileId) := PlanList(store.plans)]
      ensures outcome.Ok? && outcome.value.UpdatePlan? ==>
        store.plans == ReplaceFirst(old(store.plans), PlanId, outcome.value.plan) &&
        (FirstIndex(old(store.plans), PlanId, outcome.value.plan.id).None? ==> store.storage.items == old(store.storage.items)) &&
        (FirstIndex(old(store.plans), PlanId, outcome.value.plan.id).Some? ==>
          store.storage.items == old(store.storage.items)[PlansKey(store.profileId) := PlanList(store.plans)])
    {
      outcome := ValidatePlan(nameInput, rows, editingId, newPlanId, exerciseId, now);
      if outcome.Ok? {
        match outcome.value
        case AddPlan(plan) => store.AddPlan(plan);
        case UpdatePlan(plan) => store.UpdatePlan(plan);
      }
    }
  }

  /** `finishActiveWorkoutFromHome` as written, right after a reload: `finishWorkout`
      scrapes the page, which holds no workout cards yet, so whatever the snapshot
      stores, the log has no exercises. */
  function FinishFromHomeAfterReload(logId: string, active: Workout, now: int): (log: WorkoutLog)
    ensures log.exercises == []
    ensures log.planId == active.planId && log.planName == active.planName && log.date == now
  {
    MakeLog(logId, active, now, [])
  }

  /** A snapshot holding one complete set: finished from the home view after a
      reload, the program logs nothing (and then clears the snapshot), while finishing
      the snapshot's own rendering, as `App.FinishActiveWorkoutFromHome` does, logs the set. */
  lemma FinishFromHomeLosesSets(logId: string, now: int)
    ensures var active := Workout("plan", "Legs", AsText(0),
                                  [SessionExercise("ex", "Squat", Some([SetEntry(Some(100.0), Some(5.0), true)]), None, None)]);
      FinishFromHomeAfterReload(logId, active, now).exercises == [] &&
      MakeLog(logId, active, now, RenderCards(active.exercises)).exercises == [LoggedExercise("Squat", [LoggedSet(100.0, 5.0)])]
  {
    var active := Workout("plan", "Legs", AsText(0),
                          [SessionExercise("ex", "Squat", Some([SetEntry(Some(100.0), Some(5.0), true)]), None, None)]);
    var cards := RenderCards(active.exercises);
    assert cards == [Card("ex", "Squat", [SetEntry(Some(100.0), Some(5.0), true)])];
    assert KeptSets(cards[0].rows) == [LoggedSet(100.0, 5.0)];
  }

  /** A reload in the middle of a session: the page is saved, the snapshot is read
      back and resumed, and the same cards are shown for the same workout. */
  method SaveThenResume(app: App)
    requires app.Valid() && app.currentWorkout.Some? && app.currentWorkout.value.startTime.AsDate?
    modifies app, app.store.storage
    ensures app.Valid() && app.currentWorkout.Some?
    ensures app.View() == old(app.View())
    ensures app.currentWorkout.value.planId == old(app.currentWorkout.value.planId)
    ensures app.currentWorkout.value.planName == old(app.currentWorkout.value.planName)
    ensures app.currentWorkout.value.startTime == old(app.currentWorkout.value.startTime)
  {
    app.SaveWorkoutState();
    var snapshot := app.store.GetActiveWorkout();
    app.ResumeWorkout(snapshot.value);
  }
}
