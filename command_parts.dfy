/** Argument-list pieces that the restic and rustic backends build alike
    (src/service/model/restic.ts and src/service/model/rustic.ts): prefixed
    flag lists, the exclude list, the keep-policy flags, the forget scope and
    tail, and the reduction of `forget` output to a result.  Each builder has
    a decoder beside it, and a round-trip lemma shows that the arguments carry
    exactly the request. */
module CommandParts {
  import opened Wrappers
  import opened Text
  import opened Profiles

  // ---------------------------------------------------------------------
  // prefixed flags

  /** `prefix + item` for each item, in order. */
  function Prefixed(prefix: string, items: seq<string>): (r: seq<string>)
    ensures |r| == |items|
    ensures forall i :: 0 <= i < |items| ==> r[i] == prefix + items[i]
  {
    seq(|items|, i requires 0 <= i < |items| => prefix + items[i])
  }

  /** `items.forEach(x => acc.push(prefix + x))`. */
  method PushEach(acc: seq<string>, prefix: string, items: seq<string>) returns (r: seq<string>)
    ensures r == acc + Prefixed(prefix, items)
  {
    r := acc;
    var i := 0;
    while i < |items|
      invariant 0 <= i <= |items|
      invariant r == acc + Prefixed(prefix, items[..i])
    {
      assert Prefixed(prefix, items[..i + 1]) == Prefixed(prefix, items[..i]) + [prefix + items[i]];
      r := r + [prefix + items[i]];
      i := i + 1;
    }
    assert items[..|items|] == items;
  }

  /** Strips `prefix` from every argument; None if one lacks it. */
  function StripAll(prefix: string, args: seq<string>): Option<seq<string>>
  {
    if args == [] then Some([])
    else if !StartsWith(args[0], prefix) then None
    else match StripAll(prefix, args[1..])
      case None => None
      case Some(rest) => Some([args[0][|prefix|..]] + rest)
  }

  lemma {:induction false} StripPrefixed(prefix: string, items: seq<string>)
    ensures StripAll(prefix, Prefixed(prefix, items)) == Some(items)
  {
    if items != [] {
      var pi := Prefixed(prefix, items);
      assert pi[0][..|prefix|] == prefix && pi[0][|prefix|..] == items[0];
      assert pi[1..] == Prefixed(prefix, items[1..]);
      StripPrefixed(prefix, items[1..]);
      assert items == [items[0]] + items[1..];
    }
  }

  lemma {:induction false} StrippedPrefixed(prefix: string, args: seq<string>)
    ensures StripAll(prefix, args).Some? ==> args == Prefixed(prefix, StripAll(prefix, args).value)
  {
    if args != [] && StartsWith(args[0], prefix) {
      StrippedPrefixed(prefix, args[1..]);
      if StripAll(prefix, args[1..]).Some? {
        var rest := StripAll(prefix, args[1..]).value;
        var items := [args[0][|prefix|..]] + rest;
        assert args[0] == prefix + items[0];
        assert items[1..] == rest;
        assert Prefixed(prefix, items) == [prefix + items[0]] + Prefixed(prefix, rest);
      }
    }
  }

  /** Stripping is the exact inverse of prefixing. */
  lemma StripAllIff(prefix: string, args: seq<string>, items: seq<string>)
    ensures StripAll(prefix, args) == Some(items) <==> args == Prefixed(prefix, items)
  {
    StripPrefixed(prefix, items);
    StrippedPrefixed(prefix, args);
  }

  /** The value of the first argument that starts with `flag`. */
  function OptionValue(args: seq<string>, flag: string): Option<string>
  {
    if args == [] then None
    else if StartsWith(args[0], flag) then Some(args[0][|flag|..])
    else OptionValue(args[1..], flag)
  }

  /** The value under `flag` is the one in the first argument carrying it. */
  lemma {:induction false} FlagValue(before: seq<string>, flag: string, value: string, after: seq<string>)
    requires forall i :: 0 <= i < |before| ==> !StartsWith(before[i], flag)
    ensures OptionValue(before + [flag + value] + after, flag) == Some(value)
  {
    var args := before + [flag + value] + after;
    if before == [] {
      assert args[0] == flag + value;
      assert args[0][..|flag|] == flag && args[0][|flag|..] == value;
    } else {
      FlagValue(before[1..], flag, value, after);
      assert args[0] == before[0];
      assert args[1..] == before[1..] + [flag + value] + after;
    }
  }

  const RepoFlag: string := "-r="

  /** `getSnapshots` arguments, the same for both engines. */
  function SnapshotsArgv(repoDir: string): seq<string>
  {
    ["snapshots", RepoFlag + repoDir, "--json"]
  }

  /** `initRepo` arguments, the same for both engines. */
  function InitArgv(repoDir: string): seq<string>
  {
    ["init", "--json", RepoFlag + repoDir]
  }

  /** `unlock` arguments, the same for both engines. */
  function UnlockArgv(repoDir: string): seq<string>
  {
    ["unlock", RepoFlag + repoDir]
  }

  /** Each of these commands names exactly the given repository. */
  lemma RepoCommandsCarryRepo(repoDir: string)
    ensures OptionValue(SnapshotsArgv(repoDir), RepoFlag) == Some(repoDir)
    ensures OptionValue(InitArgv(repoDir), RepoFlag) == Some(repoDir)
    ensures OptionValue(UnlockArgv(repoDir), RepoFlag) == Some(repoDir)
  {
    DisagreeingPrefixes("snapshots", "snapshots", RepoFlag, 0);
    DisagreeingPrefixes("init", "init", RepoFlag, 0);
    DisagreeingPrefixes("--json", "--json", RepoFlag, 1);
    DisagreeingPrefixes("unlock", "unlock", RepoFlag, 0);
    FlagValue(["snapshots"], RepoFlag, repoDir, ["--json"]);
    assert ["snapshots"] + [RepoFlag + repoDir] + ["--json"] == SnapshotsArgv(repoDir);
    FlagValue(["init", "--json"], RepoFlag, repoDir, []);
    assert ["init", "--json"] + [RepoFlag + repoDir] + [] == InitArgv(repoDir);
    FlagValue(["unlock"], RepoFlag, repoDir, []);
    assert ["unlock"] + [RepoFlag + repoDir] + [] == UnlockArgv(repoDir);
  }

  // ---------------------------------------------------------------------
  // exclude list

  /** `profile.excludeSettings`; every member may be missing. */
  datatype ExcludeSettings = ExcludeSettings(
    largerThanSize: Option<int>,
    largerThanType: Option<string>,
    paths: Option<seq<string>>)

  const SizePrefix: string := "--exclude-larger-than="

  /** A missing unit is interpolated as "undefined". */
  function UnitText(t: Option<string>): string
  {
    if t.Some? then t.value else "undefined"
  }

  /** The value of the size flag: present only for a positive size. */
  function SizeArg(e: Option<ExcludeSettings>): Option<string>
  {
    if e.Some? && e.value.largerThanSize.Some? && e.value.largerThanSize.value > 0 then
      Some(IntToString(e.value.largerThanSize.value) + UnitText(e.value.largerThanType))
    else None
  }

  function ExcludedPaths(e: Option<ExcludeSettings>): seq<string>
  {
    if e.Some? && e.value.paths.Some? then e.value.paths.value else []
  }

  function OptionalArg(prefix: string, a: Option<string>): seq<string>
  {
    if a.Some? then [prefix + a.value] else []
  }

  /** The exclude list: the repository itself, the size flag when set, then
      each configured path, all under the engine's exclude prefix. */
  function ExcludeFlags(prefix: string, repoPath: string, e: Option<ExcludeSettings>): seq<string>
  {
    [prefix + repoPath] + OptionalArg(SizePrefix, SizeArg(e)) + Prefixed(prefix, ExcludedPaths(e))
  }

  /** The `exclude` array of `backup`, built by pushes. */
  method BuildExclude(prefix: string, repoPath: string, e: Option<ExcludeSettings>) returns (r: seq<string>)
    ensures r == ExcludeFlags(prefix, repoPath, e)
  {
    assert Prefixed(prefix, []) == [];
    r := [prefix + repoPath];
    if e.Some? {
      if e.value.largerThanSize.Some? && e.value.largerThanSize.value > 0 {
        r := r + [SizePrefix + (IntToString(e.value.largerThanSize.value) + UnitText(e.value.largerThanType))];
      }
      assert r == [prefix + repoPath] + OptionalArg(SizePrefix, SizeArg(e));
      if e.value.paths.Some? {
        r := PushEach(r, prefix, e.value.paths.value);
      }
    }
  }

  /** What an exclude list says: the repository, the size flag's value, and
      the excluded paths. */
  datatype ExcludeRequest = ExcludeRequest(repoPath: string, sizeArg: Option<string>, paths: seq<string>)

  function ParseExclude(prefix: string, flags: seq<string>): Option<ExcludeRequest>
  {
    if flags == [] || !StartsWith(flags[0], prefix) then None
    else
      var rest := flags[1..];
      var size := if rest != [] && StartsWith(rest[0], SizePrefix) then Some(rest[0][|SizePrefix|..]) else None;
      var tail := if size.Some? then rest[1..] else rest;
      match StripAll(prefix, tail)
      case None => None
      case Some(paths) => Some(ExcludeRequest(flags[0][|prefix|..], size, paths))
  }

  /** An exclude list under an "--i…" prefix (both engines' prefixes are)
      decodes to the repository, the size flag and the paths it was built
      from. */
  lemma ParseExcludeRoundTrip(prefix: string, repoPath: string, e: Option<ExcludeSettings>)
    requires StartsWith(prefix, "--i")
    ensures ParseExclude(prefix, ExcludeFlags(prefix, repoPath, e))
      == Some(ExcludeRequest(repoPath, SizeArg(e), ExcludedPaths(e)))
  {
    var flags := ExcludeFlags(prefix, repoPath, e);
    var tags := Prefixed(prefix, ExcludedPaths(e));
    assert flags[0] == prefix + repoPath;
    assert (prefix + repoPath)[|prefix|..] == repoPath;
    StripAllIff(prefix, tags, ExcludedPaths(e));
    if SizeArg(e).Some? {
      assert flags[1..] == [SizePrefix + SizeArg(e).value] + tags;
      assert (SizePrefix + SizeArg(e).value)[|SizePrefix|..] == SizeArg(e).value;
    } else {
      assert flags[1..] == tags;
      if tags != [] {
        assert StartsWith(tags[0], prefix);
        assert tags[0][2] == 'i';
      }
    }
  }

  // ---------------------------------------------------------------------
  // keep policy

  /** The keep members of `Partial<PruneSettings>`. */
  datatype KeepPolicy = KeepPolicy(
    keepLast: Option<int>,
    keepHourly: Option<int>,
    keepDaily: Option<int>,
    keepWeekly: Option<int>,
    keepMonthly: Option<int>)

  const KeepPrefix: string := "--keep-"

  function KeepLabel(name: string): string
  {
    KeepPrefix + name + "="
  }

  /** `if (settings.keepX) keep.push('--keep-x=' + settings.keepX)`: only a
      set, non-zero count gives a flag. */
  function KeepFlag(name: string, v: Option<int>): seq<string>
  {
    if v.Some? && v.value != 0 then [KeepLabel(name) + IntToString(v.value)] else []
  }

  /** The keep flags in the order last, hourly, daily, weekly, monthly. */
  function KeepFlags(p: KeepPolicy): seq<string>
  {
    KeepFlag("last", p.keepLast) + KeepFlag("hourly", p.keepHourly) + KeepFlag("daily", p.keepDaily)
      + KeepFlag("weekly", p.keepWeekly) + KeepFlag("monthly", p.keepMonthly)
  }

  /** The `keep` array, built by five guarded pushes. */
  method BuildKeep(p: KeepPolicy) returns (keep: seq<string>)
    ensures keep == KeepFlags(p)
  {
    keep := [];
    if p.keepLast.Some? && p.keepLast.value != 0 {
      keep := keep + [KeepLabel("last") + IntToString(p.keepLast.value)];
    }
    ghost var upto := KeepFlag("last", p.keepLast);
    assert keep == upto;
    if p.keepHourly.Some? && p.keepHourly.value != 0 {
      keep := keep + [KeepLabel("hourly") + IntToString(p.keepHourly.value)];
    }
    upto := upto + KeepFlag("hourly", p.keepHourly);
    assert keep == upto;
    if p.keepDaily.Some? && p.keepDaily.value != 0 {
      keep := keep + [KeepLabel("daily") + IntToString(p.keepDaily.value)];
    }
    upto := upto + KeepFlag("daily", p.keepDaily);
    assert keep == upto;
    if p.keepWeekly.Some? && p.keepWeekly.value != 0 {
      keep := keep + [KeepLabel("weekly") + IntToString(p.keepWeekly.value)];
    }
    upto := upto + KeepFlag("weekly", p.keepWeekly);
    assert keep == upto;
    if p.keepMonthly.Some? && p.keepMonthly.value != 0 {
      keep := keep + [KeepLabel("monthly") + IntToString(p.keepMonthly.value)];
    }
    upto := upto + KeepFlag("monthly", p.keepMonthly);
    assert keep == upto;
  }

  /** A zero count is the same as a missing one. */
  function Normal(v: Option<int>): Option<int>
  {
    if v == Some(0) then None else v
  }

  function NormalPolicy(p: KeepPolicy): KeepPolicy
  {
    KeepPolicy(Normal(p.keepLast), Normal(p.keepHourly), Normal(p.keepDaily), Normal(p.keepWeekly), Normal(p.keepMonthly))
  }

  /** Reads one optional keep flag off the front of the arguments. */
  function ParseKeepOne(name: string, args: seq<string>): (Option<int>, seq<string>)
  {
    if args != [] && StartsWith(args[0], KeepLabel(name)) then
      match ParseInt(args[0][|KeepLabel(name)|..])
      case Some(n) => (Some(n), args[1..])
      case None => (None, args)
    else (None, args)
  }

  /** Reads the keep flags, in their order, off the front of the arguments. */
  function ParseKeep(args: seq<string>): (KeepPolicy, seq<string>)
  {
    var l := ParseKeepOne("last", args);
    var h := ParseKeepOne("hourly", l.1);
    var d := ParseKeepOne("daily", h.1);
    var w := ParseKeepOne("weekly", d.1);
    var m := ParseKeepOne("monthly", w.1);
    (KeepPolicy(l.0, h.0, d.0, w.0, m.0), m.1)
  }

  lemma ParseKeepOneRoundTrip(name: string, v: Option<int>, rest: seq<string>)
    requires rest == [] || !StartsWith(rest[0], KeepLabel(name))
    ensures ParseKeepOne(name, KeepFlag(name, v) + rest) == (Normal(v), rest)
  {
    if v.Some? && v.value != 0 {
      var flag := KeepLabel(name) + IntToString(v.value);
      assert (KeepFlag(name, v) + rest)[0] == flag;
      assert flag[|KeepLabel(name)|..] == IntToString(v.value);
      ParseIntToString(v.value);
      assert (KeepFlag(name, v) + rest)[1..] == rest;
    } else {
      assert KeepFlag(name, v) + rest == rest;
    }
  }

  /** The first argument is no keep flag, or one whose name begins with one
      of `initials`. */
  predicate HeadAmong(args: seq<string>, initials: set<char>)
  {
    args == [] || !StartsWith(args[0], KeepPrefix)
      || (|args[0]| > |KeepPrefix| && args[0][|KeepPrefix|] in initials)
  }

  lemma HeadStep(name: string, v: Option<int>, args: seq<string>, initials: set<char>)
    requires name != "" && HeadAmong(args, initials)
    ensures HeadAmong(KeepFlag(name, v) + args, initials + {name[0]})
  {
    if KeepFlag(name, v) == [] {
      assert KeepFlag(name, v) + args == args;
    } else {
      var flag := KeepLabel(name) + IntToString(v.value);
      assert (KeepFlag(name, v) + args)[0] == flag;
      assert flag[|KeepPrefix|] == name[0];
    }
  }

  /** Such a head is not a flag for a name with another initial. */
  lemma HeadClean(args: seq<string>, initials: set<char>, name: string)
    requires name != "" && name[0] !in initials && HeadAmong(args, initials)
    ensures args == [] || !StartsWith(args[0], KeepLabel(name))
  {
    if args != [] && |args[0]| >= |KeepLabel(name)| {
      var tag := KeepLabel(name);
      assert tag[..|KeepPrefix|] == KeepPrefix && tag[|KeepPrefix|] == name[0];
      assert args[0][..|tag|][..|KeepPrefix|] == args[0][..|KeepPrefix|];
      assert args[0][..|tag|][|KeepPrefix|] == args[0][|KeepPrefix|];
    }
  }

  /** One keep flag read off the front, when no later flag's name shares
      its initial. */
  lemma ParseKeepStep(name: string, v: Option<int>, args: seq<string>, initials: set<char>)
    requires name != "" && name[0] !in initials && HeadAmong(args, initials)
    ensures ParseKeepOne(name, KeepFlag(name, v) + args) == (Normal(v), args)
    ensures HeadAmong(KeepFlag(name, v) + args, initials + {name[0]})
  {
    HeadClean(args, initials, name);
    ParseKeepOneRoundTrip(name, v, args);
    HeadStep(name, v, args, initials);
  }

  lemma Reassociate(a: seq<string>, b: seq<string>, c: seq<string>, d: seq<string>, e: seq<string>, rest: seq<string>)
    ensures a + b + c + d + e + rest == a + (b + (c + (d + (e + rest))))
  {
  }

  lemma KeepFlagsThen(p: KeepPolicy, rest: seq<string>)
    ensures KeepFlags(p) + rest
      == KeepFlag("last", p.keepLast) + (KeepFlag("hourly", p.keepHourly) + (KeepFlag("daily", p.keepDaily)
         + (KeepFlag("weekly", p.keepWeekly) + (KeepFlag("monthly", p.keepMonthly) + rest))))
  {
    Reassociate(KeepFlag("last", p.keepLast), KeepFlag("hourly", p.keepHourly), KeepFlag("daily", p.keepDaily),
                KeepFlag("weekly", p.keepWeekly), KeepFlag("monthly", p.keepMonthly), rest);
  }

  /** The keep flags decode to the policy they were built from (a zero count
      reads back as missing), leaving whatever follows them. */
  lemma ParseKeepRoundTrip(p: KeepPolicy, rest: seq<string>)
    requires rest == [] || !StartsWith(rest[0], KeepPrefix)
    ensures ParseKeep(KeepFlags(p) + rest) == (NormalPolicy(p), rest)
  {
    var m := KeepFlag("monthly", p.keepMonthly) + rest;
    var w := KeepFlag("weekly", p.keepWeekly) + m;
    var d := KeepFlag("daily", p.keepDaily) + w;
    var h := KeepFlag("hourly", p.keepHourly) + d;
    var l := KeepFlag("last", p.keepLast) + h;
    KeepFlagsThen(p, rest);
    assert HeadAmong(rest, {});
    ParseKeepStep("monthly", p.keepMonthly, rest, {});
    ParseKeepStep("weekly", p.keepWeekly, m, {'m'});
    ParseKeepStep("daily", p.keepDaily, w, {'m', 'w'});
    ParseKeepStep("hourly", p.keepHourly, d, {'m', 'w', 'd'});
    ParseKeepStep("last", p.keepLast, h, {'m', 'w', 'd', 'h'});
  }

  // ---------------------------------------------------------------------
  // forget

  /** What `forget` acts on: the snapshots tagged with the given paths, or
      one snapshot. */
  datatype Scope = Tags(paths: seq<string>) | Snapshot(id: string)

  const ScopeError: string := "must provide paths or snapshotId"
  const TagPrefix: string := "--tag="

  function PathsOf(infos: seq<BackupInfo>): (r: seq<string>)
    ensures |r| == |infos| && forall i :: 0 <= i < |infos| ==> r[i] == infos[i].path
  {
    seq(|infos|, i requires 0 <= i < |infos| => infos[i].path)
  }

  /** A non-empty path list wins and the snapshot id is ignored; otherwise a
      non-empty snapshot id is used; with neither, `forget` throws. */
  function ForgetScope(pathInfo: Option<seq<BackupInfo>>, snapshotId: Option<string>): (r: Result<Scope>)
    ensures pathInfo.Some? && pathInfo.value != [] ==> r == Ok(Tags(PathsOf(pathInfo.value)))
    ensures (pathInfo.None? || pathInfo.value == []) && snapshotId.Some? && snapshotId.value != "" ==>
      r == Ok(Snapshot(snapshotId.value))
    ensures (pathInfo.None? || pathInfo.value == []) && (snapshotId.None? || snapshotId.value == "") ==>
      r == Err(ScopeError)
  {
    if pathInfo.Some? && |pathInfo.value| > 0 then Ok(Tags(PathsOf(pathInfo.value)))
    else if snapshotId.None? || snapshotId.value == "" then Err(ScopeError)
    else Ok(Snapshot(snapshotId.value))
  }

  function ScopeArgs(s: Scope): seq<string>
  {
    match s
    case Tags(paths) => Prefixed(TagPrefix, paths)
    case Snapshot(id) => [id]
  }

  function ModeFlag(dryRun: bool): string
  {
    if dryRun then "--dry-run" else "--prune"
  }

  /** The arguments after the engine's `forget` head: one mode flag, the keep
      flags, then the scope. */
  function ForgetTail(dryRun: bool, p: KeepPolicy, s: Scope): seq<string>
  {
    [ModeFlag(dryRun)] + KeepFlags(p) + ScopeArgs(s)
  }

  /** The `params` array of `forget`, built by pushes onto the engine's head;
      the scope error is thrown before anything runs. */
  method BuildForget(head: seq<string>, dryRun: bool, p: KeepPolicy,
                     pathInfo: Option<seq<BackupInfo>>, snapshotId: Option<string>)
    returns (r: Result<seq<string>>)
    ensures ForgetScope(pathInfo, snapshotId).Err? ==> r == Err(ScopeError)
    ensures ForgetScope(pathInfo, snapshotId).Ok? ==>
      r == Ok(head + ForgetTail(dryRun, p, ForgetScope(pathInfo, snapshotId).value))
  {
    ghost var scope := ForgetScope(pathInfo, snapshotId);
    var params := head + [ModeFlag(dryRun)];
    var keep := BuildKeep(p);
    if |keep| > 0 {
      params := params + keep;
    }
    ghost var front := params;
    assert front == head + [ModeFlag(dryRun)] + KeepFlags(p);
    if pathInfo.Some? && |pathInfo.value| > 0 {
      params := PushEach(params, TagPrefix, PathsOf(pathInfo.value));
      assert params == front + ScopeArgs(scope.value);
    } else {
      if snapshotId.None? || snapshotId.value == "" {
        return Err(ScopeError);
      }
      params := params + [snapshotId.value];
      assert params == front + ScopeArgs(scope.value);
    }
    ForgetTailAfter(head, dryRun, p, scope.value);
    r := Ok(params);
  }

  lemma ForgetTailAfter(head: seq<string>, dryRun: bool, p: KeepPolicy, s: Scope)
    ensures head + ForgetTail(dryRun, p, s) == head + [ModeFlag(dryRun)] + KeepFlags(p) + ScopeArgs(s)
  {
  }

  /** What a forget tail asks for. */
  datatype ForgetRequest = ForgetRequest(dryRun: bool, keep: KeepPolicy, scope: Scope)

  function ParseScope(args: seq<string>): Option<Scope>
  {
    if args == [] then None
    else if StartsWith(args[0], TagPrefix) then
      match StripAll(TagPrefix, args)
      case None => None
      case Some(paths) => Some(Tags(paths))
    else if |args| == 1 && !StartsWith(args[0], "--") then Some(Snapshot(args[0]))
    else None
  }

  function ParseForgetTail(tail: seq<string>): Option<ForgetRequest>
  {
    if tail == [] || (tail[0] != "--dry-run" && tail[0] != "--prune") then None
    else
      var keep := ParseKeep(tail[1..]);
      match ParseScope(keep.1)
      case None => None
      case Some(s) => Some(ForgetRequest(tail[0] == "--dry-run", keep.0, s))
  }

  /** The scopes `ForgetScope` produces, except a snapshot id that itself
      looks like a flag. */
  predicate ReadableScope(s: Scope)
  {
    match s
    case Tags(paths) => paths != []
    case Snapshot(id) => id != "" && !StartsWith(id, "--")
  }

  lemma ParseScopeArgs(s: Scope)
    requires ReadableScope(s)
    ensures ParseScope(ScopeArgs(s)) == Some(s)
    ensures !StartsWith(ScopeArgs(s)[0], KeepPrefix)
  {
    var args := ScopeArgs(s);
    if s.Tags? {
      assert args[0] == TagPrefix + s.paths[0];
      assert args[0][..|TagPrefix|] == TagPrefix;
      StripAllIff(TagPrefix, args, s.paths);
      DisagreeingPrefixes(args[0], TagPrefix, KeepPrefix, 2);
    } else {
      NotStartsWithLonger(s.id, KeepPrefix, "--");
    }
  }

  lemma AfterHead(x: string, a: seq<string>, b: seq<string>)
    ensures ([x] + a + b)[0] == x && ([x] + a + b)[1..] == a + b
  {
  }

  /** A forget tail decodes to its mode, its policy (zero counts reading
      back as missing) and its scope. */
  lemma ParseForgetTailRoundTrip(dryRun: bool, p: KeepPolicy, s: Scope)
    requires ReadableScope(s)
    ensures ParseForgetTail(ForgetTail(dryRun, p, s)) == Some(ForgetRequest(dryRun, NormalPolicy(p), s))
  {
    var tail := ForgetTail(dryRun, p, s);
    var rest := ScopeArgs(s);
    AfterHead(ModeFlag(dryRun), KeepFlags(p), rest);
    ParseScopeArgs(s);
    ParseKeepRoundTrip(p, rest);
  }

  // ---------------------------------------------------------------------
  // forget output

  /** The result of `forget`: nothing for empty output; otherwise only the
      first line counts, parsed as JSON exactly when it starts with '['. */
  function ForgetResult<T>(stdout: string, parse: string -> Result<seq<T>>): (r: Result<seq<T>>)
    ensures stdout == "" ==> r == Ok([])
    ensures r != Ok([]) ==>
      (var line := FirstLine(stdout); line != [] && line[0] == '[' && r == parse(line))
  {
    if stdout == "" then Ok([])
    else
      var line := FirstLine(stdout);
      if line != [] && line[0] == '[' then parse(line) else Ok([])
  }

  /** The result is decided by the first line alone, and it is parsed exactly
      when it starts with '['. */
  lemma ForgetResultFirstLine<T>(stdout: string, parse: string -> Result<seq<T>>)
    ensures var line := FirstLine(stdout);
      ForgetResult(stdout, parse) == if line != [] && line[0] == '[' then parse(line) else Ok([])
    ensures forall rest :: ForgetResult(FirstLine(stdout) + "\n" + rest, parse) == ForgetResult(stdout, parse)
  {
    var line := FirstLine(stdout);
    FirstLineIsPrefix(stdout);
    if stdout == "" {
      assert line == "";
    }
    forall rest ensures ForgetResult(line + "\n" + rest, parse) == ForgetResult(stdout, parse) {
      FirstLineOfLines(line, rest);
    }
  }

  /** A progress line before the JSON array hides it: the result is empty. */
  lemma ForgetResultProgressFirst<T>(json: string, parse: string -> Result<seq<T>>)
    ensures ForgetResult("progress\n" + json, parse) == Ok([])
  {
    FirstLineOfLines("progress", json);
  }
}
