/** `ProfileManager` (script.js:14-95): the list of local profiles, the selected
    one, and the one-time move of pre-profile data under a default profile. */
module Profiles {
  import opened Wrappers
  import opened Records
  import opened Lists
  import opened LocalStorage

  const DefaultProfileName := "Default User"

  class ProfileManager {
    const storage: Storage
    var profiles: seq<Profile>
    var currentProfileId: Option<string>

    /** Memory agrees with what the constructor would read after a reload. */
    predicate Synced()
      reads this, storage
    {
      profiles == LoadProfiles(storage.items) && currentProfileId == LoadCurrentProfile(storage.items)
    }

    constructor (storage: Storage)
      ensures this.storage == storage && Synced()
    {
      this.storage := storage;
      profiles := LoadProfiles(storage.items);
      currentProfileId := LoadCurrentProfile(storage.items);
    }

    /** `profiles.find(p => p.id === currentProfileId)`; None when nothing is selected. */
    function GetCurrentProfile(): (r: Option<Profile>)
      reads this
      ensures r.Some? ==> currentProfileId == Some(r.value.id) && r.value in profiles
      ensures r.Some? ==>
        exists k :: 0 <= k < |profiles| && profiles[k] == r.value && forall j :: 0 <= j < k ==> profiles[j].id != r.value.id
      ensures r.None? <==> currentProfileId.None? || forall j :: 0 <= j < |profiles| ==> profiles[j].id != currentProfileId.value
    {
      match currentProfileId
      case None => None
      case Some(id) => Find(profiles, ProfileId, id)
    }

    method SaveProfiles()
      modifies storage
      ensures storage.items == old(storage.items)[ProfilesKey := ProfileList(profiles)]
    {
      storage.SetItem(ProfilesKey, ProfileList(profiles));
    }

    /** Appends a profile with the given fresh id; the selection is untouched. */
    method CreateProfile(id: string, name: string, createdAt: int) returns (p: Profile)
      requires Synced()
      modifies this, storage
      ensures Synced()
      ensures p == Profile(id, name, createdAt)
      ensures profiles == old(profiles) + [p] && currentProfileId == old(currentProfileId)
      ensures storage.items == old(storage.items)[ProfilesKey := ProfileList(profiles)]
    {
      p := Profile(id, name, createdAt);
      profiles := profiles + [p];
      SaveProfiles();
    }

    /** Selects `id` only when a profile has it. */
    method SetCurrentProfile(id: string) returns (ok: bool)
      requires Synced()
      modifies this, storage
      ensures Synced()
      ensures ok <==> exists j :: 0 <= j < |profiles| && profiles[j].id == id
      ensures profiles == old(profiles)
      ensures ok ==> currentProfileId == Some(id) && storage.items == old(storage.items)[CurrentProfileKey := Text(id)]
      ensures !ok ==> currentProfileId == old(currentProfileId) && storage.items == old(storage.items)
    {
      if Find(profiles, ProfileId, id).Some? {
        currentProfileId := Some(id);
        storage.SetItem(CurrentProfileKey, Text(id));
        ok := true;
      } else {
        ok := false;
      }
    }

    /** Drops the profile and its plans and history keys, and the selection when
        it was that profile. Its live-workout snapshot key is left in place. */
    method DeleteProfile(id: string)
      requires Synced()
      modifies this, storage
      ensures Synced()
      ensures profiles == RemoveKey(old(profiles), ProfileId, id)
      ensures currentProfileId == if old(currentProfileId) == Some(id) then None else old(currentProfileId)
      ensures var cleaned := old(storage.items)[ProfilesKey := ProfileList(profiles)] - {PlansKey(id)} - {HistoryKey(id)};
        storage.items == if old(currentProfileId) == Some(id) then cleaned - {CurrentProfileKey} else cleaned
      ensures ActiveWorkoutKey(id) in old(storage.items) ==>
        ActiveWorkoutKey(id) in storage.items && storage.items[ActiveWorkoutKey(id)] == old(storage.items)[ActiveWorkoutKey(id)]
    {
      profiles := RemoveKey(profiles, ProfileId, id);
      SaveProfiles();
      storage.RemoveItem(PlansKey(id));
      storage.RemoveItem(HistoryKey(id));
      if currentProfileId == Some(id) {
        currentProfileId := None;
        storage.RemoveItem(CurrentProfileKey);
      }
    }

    /** Moves the unscoped legacy lists under a new default profile, but only when
        legacy plans exist and no profile does; otherwise nothing changes. */
    method MigrateLegacyData(newId: string, now: int) returns (migrated: bool)
      requires Synced()
      modifies this, storage
      ensures Synced()
      ensures migrated <==>
        LegacyPlansKey in old(storage.items) && Truthy(old(storage.items)[LegacyPlansKey]) && |old(profiles)| == 0
      ensures !migrated ==>
        profiles == old(profiles) && currentProfileId == old(currentProfileId) && storage.items == old(storage.items)
      ensures migrated ==>
        profiles == [Profile(newId, DefaultProfileName, now)] && currentProfileId == Some(newId) &&
        storage.items == MigratedItems(old(storage.items), newId, now)
      ensures migrated ==> |profiles| == 1
    {
      if LegacyPlansKey in storage.items && Truthy(storage.items[LegacyPlansKey]) && |profiles| == 0 {
        ghost var before := storage.items;
        var legacyPlans := storage.items[LegacyPlansKey];
        var p := CreateProfile(newId, DefaultProfileName, now);
        currentProfileId := Some(p.id);
        storage.SetItem(CurrentProfileKey, Text(p.id));
        storage.SetItem(PlansKey(p.id), legacyPlans);
        ghost var moved := storage.items;
        assert profiles == [Profile(newId, DefaultProfileName, now)];
        assert moved == before[ProfilesKey := ProfileList(profiles)][CurrentProfileKey := Text(newId)]
                              [PlansKey(newId) := before[LegacyPlansKey]];
        if LegacyHistoryKey in storage.items && Truthy(storage.items[LegacyHistoryKey]) {
          storage.SetItem(HistoryKey(p.id), storage.items[LegacyHistoryKey]);
        }
        assert storage.items == if LegacyHistoryKey in before && Truthy(before[LegacyHistoryKey])
                                then moved[HistoryKey(newId) := before[LegacyHistoryKey]] else moved;
        storage.RemoveItem(LegacyPlansKey);
        storage.RemoveItem(LegacyHistoryKey);
        assert storage.items == MigratedItems(before, newId, now);
        assert storage.items[ProfilesKey] == ProfileList(profiles) && storage.items[CurrentProfileKey] == Text(newId);
        migrated := true;
      } else {
        migrated := false;
      }
    }
  }

  /** The storage a migration leaves: a profile list holding only the new default
      profile, the new profile selected, the legacy plans (and, when present, the
      legacy history) under the new profile's keys, and the legacy keys gone. */
  function MigratedItems(before: map<Key, Value>, newId: string, now: int): map<Key, Value>
    requires LegacyPlansKey in before
  {
    var moved := before[ProfilesKey := ProfileList([Profile(newId, DefaultProfileName, now)])]
                       [CurrentProfileKey := Text(newId)]
                       [PlansKey(newId) := before[LegacyPlansKey]];
    (if LegacyHistoryKey in before && Truthy(before[LegacyHistoryKey])
     then moved[HistoryKey(newId) := before[LegacyHistoryKey]] else moved)
    - {LegacyPlansKey, LegacyHistoryKey}
  }

  /** Running the migration a second time reports false and changes nothing: the
      state after both calls is the state the first call left. */
  method MigrateTwice(pm: ProfileManager, firstId: string, secondId: string, now: int)
    returns (first: bool, second: bool)
    requires pm.Synced()
    modifies pm, pm.storage
    ensures pm.Synced()
    ensures !second
    ensures first <==>
      LegacyPlansKey in old(pm.storage.items) && Truthy(old(pm.storage.items)[LegacyPlansKey]) && |old(pm.profiles)| == 0
    ensures !first ==>
      pm.profiles == old(pm.profiles) && pm.currentProfileId == old(pm.currentProfileId) &&
      pm.storage.items == old(pm.storage.items)
    ensures first ==>
      pm.profiles == [Profile(firstId, DefaultProfileName, now)] && pm.currentProfileId == Some(firstId) &&
      pm.storage.items == MigratedItems(old(pm.storage.items), firstId, now)
  {
    first := pm.MigrateLegacyData(firstId, now);
    ghost var profiles, current, items := pm.profiles, pm.currentProfileId, pm.storage.items;
    if !first {
      assert !(LegacyPlansKey in items && Truthy(items[LegacyPlansKey]) && |profiles| == 0);
    }
    second := pm.MigrateLegacyData(secondId, now);
    assert pm.profiles == profiles && pm.currentProfileId == current && pm.storage.items == items;
  }
}
