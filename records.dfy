/** The records the application keeps: profiles, plans, the live workout and
    the history log, and the values stored under localStorage keys. */
module Records {
  import opened Wrappers

  datatype Profile = Profile(id: string, name: string, createdAt: int)

  datatype ExerciseTemplate = ExerciseTemplate(id: string, name: string, defaultSets: int)

  datatype Plan = Plan(id: string, name: string, exercises: seq<ExerciseTemplate>, createdAt: int)

  /** One set row of the live page. A number input's value is either empty or a
      number, so each field is an optional number; `completed` is the row's tick. */
  datatype SetEntry = SetEntry(weight: Option<real>, reps: Option<real>, completed: bool)

  /** A set as the history log keeps it: both fields numeric. */
  datatype LoggedSet = LoggedSet(weight: real, reps: real)

  datatype LoggedExercise = LoggedExercise(name: string, sets: seq<LoggedSet>)

  /** A finished workout. `duration` is whole minutes; None is the NaN that
      `Math.round` yields when the start time is not a Date (stored as null). */
  datatype WorkoutLog = WorkoutLog(
    id: string, planId: string, planName: string, date: int,
    duration: Option<int>, exercises: seq<LoggedExercise>)

  /** An exercise of the live workout, in any of the three shapes the source
      gives it: a plan template (`defaultSets`), a redo seed (`prefillSets` and
      `defaultSets`) or a saved card (`sets`). */
  datatype SessionExercise = SessionExercise(
    id: string, name: string, sets: Option<seq<SetEntry>>,
    prefillSets: Option<seq<LoggedSet>>, defaultSets: Option<int>)

  /** A start time in milliseconds, either as a `Date` object or as the ISO
      text `JSON.stringify` turns a `Date` into. */
  datatype StartTime = AsDate(ms: int) | AsText(ms: int)

  datatype Workout = Workout(planId: string, planName: string, startTime: StartTime, exercises: seq<SessionExercise>)

  /** What a localStorage key holds, with JSON taken as lossless. */
  datatype Value =
    | Text(text: string)
    | ProfileList(profiles: seq<Profile>)
    | PlanList(plans: seq<Plan>)
    | LogList(logs: seq<WorkoutLog>)
    | Snapshot(workout: Workout)

  /** `if (value)` on the string `getItem` returns: only the empty string is falsy. */
  predicate Truthy(v: Value) {
    v != Text("")
  }

  /** The `n || 3` idiom on a count that may be missing: absent or 0 gives 3. */
  function CountOr3(n: Option<int>): (r: int)
    ensures r != 0
    ensures n.None? || n == Some(0) ==> r == 3
    ensures n.Some? && n.value != 0 ==> r == n.value
  {
    match n
    case None => 3
    case Some(k) => if k == 0 then 3 else k
  }

  function ProfileId(p: Profile): string { p.id }
  function PlanId(p: Plan): string { p.id }
  function LogId(l: WorkoutLog): string { l.id }

  /** `JSON.parse(JSON.stringify(w))`: the start time becomes text. */
  function Serialize(w: Workout): (r: Workout)
    ensures r.startTime.AsText? && r.startTime.ms == w.startTime.ms
    ensures r.planId == w.planId && r.planName == w.planName && r.exercises == w.exercises
  {
    w.(startTime := AsText(w.startTime.ms))
  }

  /** `{...saved, startTime: new Date(saved.startTime)}` in `resumeWorkout`. */
  function Revive(w: Workout): (r: Workout)
    ensures r.startTime.AsDate? && r.startTime.ms == w.startTime.ms
    ensures r.planId == w.planId && r.planName == w.planName && r.exercises == w.exercises
  {
    w.(startTime := AsDate(w.startTime.ms))
  }

  /** Storing a live workout and resuming it gives that workout back. */
  lemma ReviveSerialize(w: Workout)
    requires w.startTime.AsDate?
    ensures Revive(Serialize(w)) == w
  {
  }
}
