/** `UserProfile` (src/service/model/profile.ts): a profile's settings object,
    with its defaults, `setStoredSecret`, and the `toStorage`/`fromStorage`
    pair that writes it to and reads it from the profile's JSON file. */
module Profiles {

  /** `BackupInfo`: one directory a profile backs up. */
  datatype BackupInfo = BackupInfo(path: string)

  /** A JSON value.  `fromStorage` copies whatever JSON.parse produced into the
      fields, so every field holds a JSON value rather than its declared type. */
  datatype Json =
    | JNull
    | JBool(b: bool)
    | JNum(n: int)
    | JStr(s: string)
    | JArr(items: seq<Json>)
    | JObj(members: map<string, Json>)

  /** The own enumerable keys of a UserProfile, in declaration order. */
  const FieldNames: seq<string> :=
    ["profileName", "repoPath", "repoStats", "repoInfo", "backupDirs", "passwordStrategy", "storedSecred"]

  /** `toStorage` drops keys whose first character is '_'. */
  predicate Hidden(key: string)
  {
    |key| > 0 && key[0] == '_'
  }

  /** The field values of a new profile called `name`. */
  function Defaults(name: string): map<string, Json>
  {
    map[
      "profileName" := JStr(name),
      "repoPath" := JStr(""),
      "repoStats" := JObj(map[]),
      "repoInfo" := JObj(map[]),
      "backupDirs" := JArr([]),
      "passwordStrategy" := JStr("file"),
      "storedSecred" := JStr("")]
  }

  /** The filter of `toStorage`: exactly the entries whose key is not hidden. */
  function Visible(fields: map<string, Json>): (r: map<string, Json>)
    ensures forall k :: k in r <==> k in fields && !Hidden(k)
    ensures forall k :: k in r ==> r[k] == fields[k]
  {
    map k | k in fields && !Hidden(k) :: fields[k]
  }

  /** The effect of `fromStorage` once it has visited the keys in `visited`:
      a visited key present in `data` takes the data's value; every other
      field keeps its value, and keys of `data` that are not fields are
      ignored. */
  function Overlay(fields: map<string, Json>, data: map<string, Json>, visited: seq<string>): (r: map<string, Json>)
    ensures r.Keys == fields.Keys
  {
    map k | k in fields :: if k in visited && k in data then data[k] else fields[k]
  }

  /** Visiting one more key applies that key's data, if any. */
  lemma OverlayStep(fields: map<string, Json>, data: map<string, Json>, visited: seq<string>, key: string)
    requires key in fields
    ensures Overlay(fields, data, visited + [key])
      == if key in data then Overlay(fields, data, visited)[key := data[key]] else Overlay(fields, data, visited)
  {
    var after := Overlay(fields, data, visited + [key]);
    var before := Overlay(fields, data, visited);
    var expected := if key in data then before[key := data[key]] else before;
    assert after.Keys == expected.Keys;
    forall k | k in after ensures after[k] == expected[k] {
      assert k in visited + [key] <==> k in visited || k == key;
    }
  }

  /** Reading back what was stored restores every field, whatever the
      profile it is read into held before (fresh or not). */
  lemma StorageRoundTrip(p: map<string, Json>, q: map<string, Json>)
    requires p.Keys == q.Keys
    requires forall k :: k in p ==> !Hidden(k)
    requires forall k :: k in p ==> k in FieldNames
    ensures Overlay(q, Visible(p), FieldNames) == p
  {
  }

  class UserProfile {
    var profileName: Json
    var repoPath: Json
    var repoStats: Json
    var repoInfo: Json
    var backupDirs: Json
    var passwordStrategy: Json
    var storedSecred: Json

    /** `Object.entries(this)`, as a map from key to value. */
    function Fields(): (m: map<string, Json>)
      reads this
      ensures forall k :: k in m <==> k in FieldNames
    {
      map[
        "profileName" := profileName,
        "repoPath" := repoPath,
        "repoStats" := repoStats,
        "repoInfo" := repoInfo,
        "backupDirs" := backupDirs,
        "passwordStrategy" := passwordStrategy,
        "storedSecred" := storedSecred]
    }

    constructor (name: string)
      ensures Fields() == Defaults(name)
      ensures profileName == JStr(name)
    {
      profileName := JStr(name);
      repoPath := JStr("");
      repoStats := JObj(map[]);
      repoInfo := JObj(map[]);
      backupDirs := JArr([]);
      passwordStrategy := JStr("file");
      storedSecred := JStr("");
    }

    method SetStoredSecret(pw: string)
      modifies this`storedSecred
      ensures storedSecred == JStr(pw)
      ensures Fields() == old(Fields())["storedSecred" := JStr(pw)]
    {
      storedSecred := JStr(pw);
    }

    /** The object that is serialised into profile.json.  No field of a
        profile is hidden, so it carries every field. */
    function ToStorage(): (r: map<string, Json>)
      reads this
      ensures r == Fields()
    {
      Visible(Fields())
    }

    /** `this[key] = value` for one of the profile's own keys. */
    method SetField(key: string, value: Json)
      requires key in FieldNames
      modifies this
      ensures Fields() == old(Fields())[key := value]
    {
      if key == "profileName" {
        profileName := value;
      } else if key == "repoPath" {
        repoPath := value;
      } else if key == "repoStats" {
        repoStats := value;
      } else if key == "repoInfo" {
        repoInfo := value;
      } else if key == "backupDirs" {
        backupDirs := value;
      } else if key == "passwordStrategy" {
        passwordStrategy := value;
      } else {
        storedSecred := value;
      }
    }

    /** The `forEach` over `Object.keys(this)`, assigning each key present in
        the data. */
    method FromStorage(data: map<string, Json>)
      modifies this
      ensures Fields() == Overlay(old(Fields()), data, FieldNames)
    {
      var i := 0;
      while i < |FieldNames|
        invariant 0 <= i <= |FieldNames|
        invariant Fields() == Overlay(old(Fields()), data, FieldNames[..i])
      {
        var key := FieldNames[i];
        OverlayStep(old(Fields()), data, FieldNames[..i], key);
        assert FieldNames[..i + 1] == FieldNames[..i] + [key];
        if key in data {
          SetField(key, data[key]);
        }
        i := i + 1;
      }
      assert FieldNames[..|FieldNames|] == FieldNames;
    }
  }
}
