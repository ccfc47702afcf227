/** localStorage as a map from keys to values, and the key scheme that scopes
    every list by profile id (script.js:16-17, 54-64, 99-130). */
module LocalStorage {
  import opened Wrappers
  import opened Records

  /** The localStorage keys the application uses; `Name` gives the string. */
  datatype Key =
    | ProfilesKey
    | CurrentProfileKey
    | LegacyPlansKey
    | LegacyHistoryKey
    | PlansKey(profileId: string)
    | HistoryKey(profileId: string)
    | ActiveWorkoutKey(profileId: string)

  function Name(k: Key): string {
    match k
    case ProfilesKey => "neon_profiles"
    case CurrentProfileKey => "neon_current_profile"
    case LegacyPlansKey => "neon_plans"
    case LegacyHistoryKey => "neon_history"
    case PlansKey(p) => "neon_plans_" + p
    case HistoryKey(p) => "neon_history_" + p
    case ActiveWorkoutKey(p) => "neon_active_workout_" + p
  }

  /** No two keys share a name, whatever the profile ids: keeping localStorage
      as a map over `Key` loses nothing. */
  lemma NameInjective(j: Key, k: Key)
    ensures Name(j) == Name(k) ==> j == k
  {
    if Name(j) == Name(k) {
      NameShape(j);
      NameShape(k);
      if j.PlansKey? && k.PlansKey? {
        assert Name(j)[11..] == j.profileId && Name(k)[11..] == k.profileId;
      } else if j.HistoryKey? && k.HistoryKey? {
        assert Name(j)[13..] == j.profileId && Name(k)[13..] == k.profileId;
      } else if j.ActiveWorkoutKey? && k.ActiveWorkoutKey? {
        assert Name(j)[20..] == j.profileId && Name(k)[20..] == k.profileId;
      }
    }
  }

  /** The characters that tell the names apart: the sixth and seventh, and the length. */
  lemma NameShape(k: Key)
    ensures |Name(k)| >= 10
    ensures Name(k)[5] == match k
      case ProfilesKey | LegacyPlansKey | PlansKey(_) => 'p'
      case CurrentProfileKey => 'c'
      case LegacyHistoryKey | HistoryKey(_) => 'h'
      case ActiveWorkoutKey(_) => 'a'
    ensures k.ProfilesKey? ==> Name(k)[6] == 'r'
    ensures k.LegacyPlansKey? || k.PlansKey? ==> Name(k)[6] == 'l'
    ensures k.LegacyPlansKey? ==> |Name(k)| == 10
    ensures k.PlansKey? ==> |Name(k)| >= 11
    ensures k.LegacyHistoryKey? ==> |Name(k)| == 12
    ensures k.HistoryKey? ==> |Name(k)| >= 13
  {
  }

  /** `JSON.parse(localStorage.getItem(key)) || []` for a list of plans. */
  function LoadPlans(items: map<Key, Value>, key: Key): seq<Plan>
  {
    if key in items && items[key].PlanList? then items[key].plans else []
  }

  function LoadLogs(items: map<Key, Value>, key: Key): seq<WorkoutLog>
  {
    if key in items && items[key].LogList? then items[key].logs else []
  }

  function LoadProfiles(items: map<Key, Value>): seq<Profile>
  {
    if ProfilesKey in items && items[ProfilesKey].ProfileList? then items[ProfilesKey].profiles else []
  }

  /** `localStorage.getItem('neon_current_profile')`, None for null. */
  function LoadCurrentProfile(items: map<Key, Value>): Option<string>
  {
    if CurrentProfileKey in items && items[CurrentProfileKey].Text? then Some(items[CurrentProfileKey].text) else None
  }

  /** `JSON.parse(localStorage.getItem(key))` for the workout snapshot, None for null. */
  function LoadSnapshot(items: map<Key, Value>, key: Key): Option<Workout>
  {
    if key in items && items[key].Snapshot? then Some(items[key].workout) else None
  }

  /** The browser's store: a map the `setItem`/`removeItem` calls rewrite. */
  class Storage {
    var items: map<Key, Value>

    constructor (initial: map<Key, Value>)
      ensures items == initial
    {
      items := initial;
    }

    method SetItem(key: Key, v: Value)
      modifies this
      ensures items == old(items)[key := v]
    {
      items := items[key := v];
    }

    method RemoveItem(key: Key)
      modifies this
      ensures items == old(items) - {key}
    {
      items := items - {key};
    }
  }
}
