/** Profile storage (src/service/user-storage.ts): the profile-name pattern,
    and creating, listing, saving, loading and deleting profiles in the
    storage directory, which is modelled as a map from entry name to kind
    plus the contents of each profile's profile.json. */
module UserStorage {
  import opened Wrappers
  import opened Profiles

  /** One character of the class [0-9a-z-._]. */
  predicate IsNameChar(c: char)
  {
    ('0' <= c <= '9') || ('a' <= c <= 'z') || c == '-' || c == '.' || c == '_'
  }

  /** Three class characters start at index k. */
  predicate RunAt(name: string, k: int)
  {
    0 <= k && k + 3 <= |name| && IsNameChar(name[k]) && IsNameChar(name[k + 1]) && IsNameChar(name[k + 2])
  }

  /** The language of the unanchored pattern /[0-9a-z-._]{3,32}/ under
      `test`: some run of three class characters occurs anywhere in the name
      (a longer run contains one, so the upper bound 32 never matters). */
  ghost predicate HasNameRun(name: string)
  {
    exists k :: RunAt(name, k)
  }

  /** The matcher: scans left to right, counting the current run of class
      characters, and accepts as soon as the run reaches three. */
  function MatchFrom(name: string, i: nat, run: nat): bool
    decreases |name| - i
  {
    if run >= 3 then true
    else if i >= |name| then false
    else if IsNameChar(name[i]) then MatchFrom(name, i + 1, run + 1)
    else MatchFrom(name, i + 1, 0)
  }

  /** `validProfileName.test(name)`: the matcher accepts exactly the names
      that contain a run of three class characters, wherever it stands. */
  function ValidProfileName(name: string): (r: bool)
    ensures r <==> HasNameRun(name)
  {
    MatchFromRuns(name, 0, 0);
    MatchFrom(name, 0, 0)
  }

  lemma {:induction false} MatchFromRuns(name: string, i: nat, run: nat)
    requires run <= i <= |name|
    requires forall j :: i - run <= j < i ==> IsNameChar(name[j])
    ensures MatchFrom(name, i, run) <==> run >= 3 || exists k :: i - run <= k && RunAt(name, k)
    decreases |name| - i
  {
    if run >= 3 {
      assert RunAt(name, i - run);
    } else if i >= |name| {
    } else if IsNameChar(name[i]) {
      MatchFromRuns(name, i + 1, run + 1);
      if run == 2 {
        assert RunAt(name, i - 2);
      }
    } else {
      MatchFromRuns(name, i + 1, 0);
      forall k | i - run <= k <= i ensures !RunAt(name, k) {
        if k + 3 <= |name| {
          assert name[k + (i - k)] == name[i];
        }
      }
    }
  }

  /** Because the pattern is unanchored, names with separators, dots and
      upper-case letters around a run are accepted; names without a run of
      three are not. */
  lemma ValidProfileNameExamples()
    ensures ValidProfileName("../../abc")
    ensures ValidProfileName("My Backup/xyz")
    ensures ValidProfileName("home")
    ensures !ValidProfileName("ab")
    ensures !ValidProfileName("ABC")
    ensures !ValidProfileName("a/b/c")
  {
  }

  /** The storage directory: each entry's name and whether it is a directory,
      and the profile.json written into each profile directory. */
  class ProfileStorage {
    var isDirectory: map<string, bool>
    var saved: map<string, map<string, Json>>

    ghost predicate Valid()
      reads this
    {
      forall n :: n in saved ==> n in isDirectory && isDirectory[n]
    }

    constructor ()
      ensures Valid() && isDirectory == map[] && saved == map[]
    {
      isDirectory := map[];
      saved := map[];
    }

    /** `listProfiles`: the names of the directory entries only. */
    function ListProfiles(): (names: set<string>)
      reads this
      ensures forall n :: n in names <==> n in isDirectory && isDirectory[n]
    {
      set n | n in isDirectory && isDirectory[n]
    }

    /** `createProfile`: checks the name, refuses an existing profile, creates
        the directory, and saves and returns a new profile. */
    method CreateProfile(name: string) returns (r: Result<UserProfile>)
      requires Valid()
      modifies this
      ensures Valid()
      ensures !ValidProfileName(name) ==> r == Err("invalid profileName") && unchanged(this)
      ensures ValidProfileName(name) && name in old(ListProfiles()) ==>
        r == Err("profile already exists: " + name) && unchanged(this)
      ensures ValidProfileName(name) && name in old(isDirectory) && !old(isDirectory)[name] ==>
        r == Err("mkdir failed: " + name) && unchanged(this)
      ensures ValidProfileName(name) && name !in old(isDirectory) ==>
        && r.Ok? && fresh(r.value)
        && r.value.Fields() == Defaults(name)
        && isDirectory == old(isDirectory)[name := true]
        && saved == old(saved)[name := Defaults(name)]
        && ListProfiles() == old(ListProfiles()) + {name}
    {
      if !ValidProfileName(name) {
        return Err("invalid profileName");
      }
      var existing := ListProfiles();
      if name in existing {
        return Err("profile already exists: " + name);
      }
      if name in isDirectory {
        // mkdir over an existing non-directory entry fails
        return Err("mkdir failed: " + name);
      }
      isDirectory := isDirectory[name := true];
      var model := new UserProfile(name);
      assert name in ListProfiles();
      var ok := SaveProfile(model);
      assert ok.Ok?;
      r := Ok(model);
    }

    /** `saveProfile`: writes `toStorage()` into the profile's directory, named
        by its `profileName` field. */
    method SaveProfile(model: UserProfile) returns (ok: Result<Unit>)
      requires Valid()
      modifies this`saved
      ensures Valid()
      ensures ok.Ok? <==> model.profileName.JStr? && model.profileName.s in ListProfiles()
      ensures ok.Ok? ==> saved == old(saved)[model.profileName.s := model.Fields()]
      ensures ok.Err? ==> saved == old(saved)
    {
      if !model.profileName.JStr? || model.profileName.s !in isDirectory || !isDirectory[model.profileName.s] {
        return Err("cannot write profile.json");
      }
      saved := saved[model.profileName.s := model.ToStorage()];
      ok := Ok(Unit);
    }

    /** `loadProfile`: a new profile called `name`, overwritten from the stored
        JSON. */
    method LoadProfile(name: string) returns (r: Result<UserProfile>)
      ensures name !in saved ==> r.Err?
      ensures name in saved ==>
        r.Ok? && fresh(r.value) && r.value.Fields() == Overlay(Defaults(name), saved[name], FieldNames)
    {
      if name !in saved {
        return Err("cannot read profile.json");
      }
      var model := new UserProfile(name);
      model.FromStorage(saved[name]);
      r := Ok(model);
    }

    /** `deleteProfile`: checks the name, refuses a missing profile, and
        removes the profile directory with its contents. */
    method DeleteProfile(name: string) returns (r: Result<Unit>)
      requires Valid()
      modifies this
      ensures Valid()
      ensures !ValidProfileName(name) ==> r == Err("invalid profileName") && unchanged(this)
      ensures ValidProfileName(name) && name !in old(ListProfiles()) ==>
        r == Err("profile does not exist: " + name) && unchanged(this)
      ensures ValidProfileName(name) && name in old(ListProfiles()) ==>
        && r == Ok(Unit)
        && isDirectory == old(isDirectory) - {name}
        && saved == old(saved) - {name}
        && ListProfiles() == old(ListProfiles()) - {name}
    {
      if !ValidProfileName(name) {
        return Err("invalid profileName");
      }
      var existing := ListProfiles();
      if name !in existing {
        return Err("profile does not exist: " + name);
      }
      isDirectory := isDirectory - {name};
      saved := saved - {name};
      r := Ok(Unit);
    }
  }

  /** A profile saved and loaded again under the same name has every field it
      had when it was saved. */
  method SaveThenLoad(storage: ProfileStorage, model: UserProfile) returns (loaded: Result<UserProfile>)
    requires storage.Valid()
    requires model.profileName.JStr? && model.profileName.s in storage.ListProfiles()
    modifies storage`saved
    ensures loaded.Ok? && loaded.value.Fields() == model.Fields()
  {
    var ok := storage.SaveProfile(model);
    var name := model.profileName.s;
    loaded := storage.LoadProfile(name);
    StorageRoundTrip(model.Fields(), Defaults(name));
  }
}
