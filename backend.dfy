/** The backends (src/service/model/base-backend.ts, restic.ts, rustic.ts):
    one class for both engines, holding the single running backup batch and
    the current mount, plus the operations that run an engine command and
    read its output.  Running a command (`execFile`) and parsing JSON are
    function parameters; `fs.stat` answers are a function from attempt number
    to outcome; the mount base directory made from `os.tmpdir()` and
    `Date.now()` is a parameter. */
module Backends {
  import opened Wrappers
  import opened Text
  import opened Profiles
  import opened Processes
  import opened Batches
  import opened CommandParts
  import ResticCommands
  import RusticCommands

  datatype Engine = Restic | Rustic

  /** The host facts the backends read: `os.platform()`, `process.env`,
      `process.cwd()`, `process.resourcesPath` and the separator of
      `node:path`. */
  datatype Host = Host(platform: string, env: Env, cwd: string, resourcesPath: string, sep: char)

  /** What the backends read from a profile: `repoPath`, `getRepoEnv()`,
      `getSecret()` and `excludeSettings`. */
  datatype RepoProfile = RepoProfile(repoPath: string, repoEnv: Env, secret: string, exclude: Option<ExcludeSettings>)

  function BinFile(engine: Engine): string
  {
    if engine == Restic then ResticCommands.BinFile else RusticCommands.BinFile
  }

  function PasswordVar(engine: Engine): string
  {
    if engine == Restic then ResticCommands.PasswordVar else RusticCommands.PasswordVar
  }

  function ExcludePrefix(engine: Engine): string
  {
    if engine == Restic then ResticCommands.ExcludePrefix else RusticCommands.ExcludePrefix
  }

  function BackupArgv(engine: Engine, exclude: seq<string>, repoPath: string, info: BackupInfo): seq<string>
  {
    if engine == Restic then ResticCommands.BackupArgv(exclude, repoPath, info)
    else RusticCommands.BackupArgv(exclude, repoPath, info)
  }

  function ForgetHead(engine: Engine, repoPath: string): seq<string>
  {
    if engine == Restic then ResticCommands.ForgetHead(repoPath) else RusticCommands.ForgetHead(repoPath)
  }

  function RestoreArgv(engine: Engine, path: string, repoPath: string, targetPath: string): seq<string>
  {
    if engine == Restic then ResticCommands.RestoreArgv(path, repoPath, targetPath)
    else RusticCommands.RestoreArgv(path, repoPath, targetPath)
  }

  // ---------------------------------------------------------------------
  // paths and environments

  function NonEmpty(segments: seq<string>): (r: seq<string>)
    ensures forall i :: 0 <= i < |r| ==> r[i] != ""
  {
    if segments == [] then []
    else if segments[0] == "" then NonEmpty(segments[1..])
    else [segments[0]] + NonEmpty(segments[1..])
  }

  lemma NonEmptyCons(s: string, rest: seq<string>)
    ensures NonEmpty([s] + rest) == (if s == "" then [] else [s]) + NonEmpty(rest)
  {
    assert ([s] + rest)[1..] == rest;
  }

  /** `Path.join`: the non-empty segments joined by the separator. */
  function JoinPath(segments: seq<string>, sep: char): string
  {
    Join(NonEmpty(segments), sep)
  }

  const ExeSuffix: string := ".exe"

  /** The directory `getFullBinPath` looks under: the working directory in
      development, the resources path otherwise. */
  function BinDir(host: Host): string
  {
    if "NODE_ENV" in host.env && host.env["NODE_ENV"] == "development" then host.cwd else host.resourcesPath
  }

  /** The engine's file name, with ".exe" on win32. */
  function BinName(engine: Engine, host: Host): string
  {
    BinFile(engine) + (if host.platform == "win32" then ExeSuffix else "")
  }

  /** `getFullBinPath`. */
  function FullBinPath(engine: Engine, host: Host): string
  {
    JoinPath([BinDir(host), "bin", BinName(engine, host)], host.sep)
  }

  /** Joining a directory, possibly empty, and two non-empty segments. */
  lemma JoinPathThree(dir: string, sub: string, file: string, sep: char)
    requires sub != "" && file != ""
    ensures JoinPath([dir, sub, file], sep) == (if dir == "" then "" else dir + [sep]) + sub + [sep] + file
  {
    NonEmptyCons(file, []);
    assert [file] + [] == [file];
    NonEmptyCons(sub, [file]);
    assert [sub] + [file] == [sub, file];
    NonEmptyCons(dir, [sub, file]);
    assert [dir] + [sub, file] == [dir, sub, file];
    assert [sub, file][1..] == [file];
    assert Join([sub, file], sep) == sub + [sep] + file;
    if dir != "" {
      assert [dir, sub, file][1..] == [sub, file];
      assert Join([dir, sub, file], sep) == dir + [sep] + Join([sub, file], sep);
    }
  }

  /** The bin path is `<dir><sep>bin<sep><file>`, or just `bin<sep><file>`
      when the directory is empty. */
  lemma FullBinPathShape(engine: Engine, host: Host)
    ensures FullBinPath(engine, host)
      == (if BinDir(host) == "" then "" else BinDir(host) + [host.sep]) + "bin" + [host.sep] + BinName(engine, host)
  {
    assert |BinName(engine, host)| >= 6;
    JoinPathThree(BinDir(host), "bin", BinName(engine, host), host.sep);
  }

  /** The bin path ends in ".exe" exactly on win32. */
  lemma FullBinPathExe(engine: Engine, host: Host)
    ensures EndsWith(FullBinPath(engine, host), ExeSuffix) <==> host.platform == "win32"
  {
    FullBinPathShape(engine, host);
    var r, file := FullBinPath(engine, host), BinName(engine, host);
    assert r[|r| - |file|..] == file;
    if host.platform == "win32" {
      assert r[|r| - 4..] == file[|file| - 4..];
    } else {
      assert r[|r| - 4..] == BinFile(engine)[2..];
    }
  }

  /** The environment of an engine command: `{...process.env, ...repoEnv,
      PASSWORD: secret}`. */
  function ProfileEnv(engine: Engine, host: Host, profile: RepoProfile): Env
  {
    Merge(Merge(host.env, profile.repoEnv), map[PasswordVar(engine) := profile.secret])
  }

  /** The password reaches the command only through its environment
      variable, which neither the host nor the repository environment can
      override; every other repository entry overrides the host's. */
  lemma ProfileEnvPassword(engine: Engine, host: Host, profile: RepoProfile)
    ensures ProfileEnv(engine, host, profile)[PasswordVar(engine)] == profile.secret
    ensures forall k :: k in profile.repoEnv && k != PasswordVar(engine) ==>
      ProfileEnv(engine, host, profile)[k] == profile.repoEnv[k]
    ensures forall k :: k in host.env && k !in profile.repoEnv && k != PasswordVar(engine) ==>
      ProfileEnv(engine, host, profile)[k] == host.env[k]
  {
  }

  // ---------------------------------------------------------------------
  // running engine commands

  /** One `execFile` call: the binary, its arguments and the environment. */
  datatype Invocation = Invocation(bin: string, args: seq<string>, env: Env)

  datatype Output = Output(stdout: string, stderr: string)

  /** `exec`: the caller's entries override the ambient environment. */
  function ExecCall(engine: Engine, host: Host, args: seq<string>, env: Env): (c: Invocation)
    ensures c.bin == FullBinPath(engine, host) && c.args == args
    ensures forall k :: k in env ==> k in c.env && c.env[k] == env[k]
    ensures forall k :: k in host.env && k !in env ==> k in c.env && c.env[k] == host.env[k]
    ensures c.env.Keys == host.env.Keys + env.Keys
  {
    Invocation(FullBinPath(engine, host), args, Merge(host.env, env))
  }

  function RepoEnv(engine: Engine, host: Host, repoEnv: Env, password: string): Env
  {
    Merge(Merge(host.env, repoEnv), map[PasswordVar(engine) := password])
  }

  /** `getSnapshots`: empty output means no snapshots. */
  function GetSnapshots<T>(engine: Engine, host: Host, repoDir: string, password: string, repoEnv: Env,
                           exec: Invocation -> Result<Output>, parse: string -> Result<seq<T>>): (r: Result<seq<T>>)
    ensures var out := exec(ExecCall(engine, host, SnapshotsArgv(repoDir), RepoEnv(engine, host, repoEnv, password)));
      && (out.Err? ==> r == Err(out.msg))
      && (out.Ok? && out.value.stdout == "" ==> r == Ok([]))
      && (out.Ok? && out.value.stdout != "" ==> r == parse(out.value.stdout))
  {
    match exec(ExecCall(engine, host, SnapshotsArgv(repoDir), RepoEnv(engine, host, repoEnv, password)))
    case Err(m) => Err(m)
    case Ok(out) => if out.stdout == "" then Ok([]) else parse(out.stdout)
  }

  /** `initRepo`: the command's stdout. */
  function InitRepo(engine: Engine, host: Host, repoDir: string, password: string, repoEnv: Env,
                    exec: Invocation -> Result<Output>): (r: Result<string>)
    ensures var out := exec(ExecCall(engine, host, InitArgv(repoDir), RepoEnv(engine, host, repoEnv, password)));
      && (r.Ok? <==> out.Ok?)
      && (r.Ok? ==> r.value == out.value.stdout)
      && (r.Err? ==> r.msg == out.msg)
  {
    match exec(ExecCall(engine, host, InitArgv(repoDir), RepoEnv(engine, host, repoEnv, password)))
    case Err(m) => Err(m)
    case Ok(out) => Ok(out.stdout)
  }

  /** `assertRepoExists`: the snapshots when they can be listed; on any
      failure, one `init` and then an empty list (or init's error).  The
      second component lists the commands run, in order. */
  function AssertRepoExists<T>(engine: Engine, host: Host, repoDir: string, password: string, repoEnv: Env,
                               exec: Invocation -> Result<Output>, parse: string -> Result<seq<T>>)
    : (r: (Result<seq<T>>, seq<Invocation>))
    ensures var listing := GetSnapshots(engine, host, repoDir, password, repoEnv, exec, parse);
      var snap := ExecCall(engine, host, SnapshotsArgv(repoDir), RepoEnv(engine, host, repoEnv, password));
      var init := ExecCall(engine, host, InitArgv(repoDir), RepoEnv(engine, host, repoEnv, password));
      && (listing.Ok? ==> r == (listing, [snap]))
      && (listing.Err? ==> r.1 == [snap, init])
      && (listing.Err? && exec(init).Ok? ==> r.0 == Ok([]))
      && (listing.Err? && exec(init).Err? ==> r.0 == Err(exec(init).msg))
  {
    var snap := ExecCall(engine, host, SnapshotsArgv(repoDir), RepoEnv(engine, host, repoEnv, password));
    var init := ExecCall(engine, host, InitArgv(repoDir), RepoEnv(engine, host, repoEnv, password));
    match GetSnapshots(engine, host, repoDir, password, repoEnv, exec, parse)
    case Ok(s) => (Ok(s), [snap])
    case Err(_) =>
      match InitRepo(engine, host, repoDir, password, repoEnv, exec)
      case Err(m) => (Err(m), [snap, init])
      case Ok(_) => (Ok([]), [snap, init])
  }

  /** `unlock`: the password is the only entry the caller adds to the
      ambient environment; the repository environment is not passed. */
  function Unlock(engine: Engine, host: Host, repoDir: string, password: string,
                  exec: Invocation -> Result<Output>): (r: (Result<Unit>, Invocation))
    ensures r.1.args == UnlockArgv(repoDir) && r.1.bin == FullBinPath(engine, host)
    ensures r.1.env == host.env[PasswordVar(engine) := password]
    ensures r.0.Ok? <==> exec(r.1).Ok?
  {
    var call := ExecCall(engine, host, UnlockArgv(repoDir), map[PasswordVar(engine) := password]);
    match exec(call)
    case Err(m) => (Err(m), call)
    case Ok(_) => (Ok(Unit), call)
  }

  /** `forget`: the scope is checked before anything runs; the command's
      output is reduced by `ForgetResult`.  The calls made are returned. */
  method Forget<T>(engine: Engine, host: Host, profile: RepoProfile, policy: KeepPolicy, dryRun: bool,
                   pathInfo: Option<seq<BackupInfo>>, snapshotId: Option<string>,
                   exec: Invocation -> Result<Output>, parse: string -> Result<seq<T>>)
    returns (r: Result<seq<T>>, calls: seq<Invocation>)
    ensures ForgetScope(pathInfo, snapshotId).Err? ==> r == Err(ScopeError) && calls == []
    ensures ForgetScope(pathInfo, snapshotId).Ok? ==>
      var args := ForgetHead(engine, profile.repoPath) + ForgetTail(dryRun, policy, ForgetScope(pathInfo, snapshotId).value);
      && calls == [ExecCall(engine, host, args, ProfileEnv(engine, host, profile))]
      && (exec(calls[0]).Err? ==> r == Err(exec(calls[0]).msg))
      && (exec(calls[0]).Ok? ==> r == ForgetResult(exec(calls[0]).value.stdout, parse))
  {
    var params := BuildForget(ForgetHead(engine, profile.repoPath), dryRun, policy, pathInfo, snapshotId);
    if params.Err? {
      return Err(params.msg), [];
    }
    var call := ExecCall(engine, host, params.value, ProfileEnv(engine, host, profile));
    calls := [call];
    var res := exec(call);
    if res.Err? {
      return Err(res.msg), calls;
    }
    r := ForgetResult(res.value.stdout, parse);
  }

  /** The arguments `forget` runs begin with the engine's head and decode to
      the mode, policy and scope requested. */
  lemma ForgetArgsDecode(engine: Engine, repoPath: string, dryRun: bool, policy: KeepPolicy, scope: Scope)
    requires ReadableScope(scope)
    ensures var args := ForgetHead(engine, repoPath) + ForgetTail(dryRun, policy, scope);
      && args[..3] == ForgetHead(engine, repoPath)
      && ParseForgetTail(args[3..]) == Some(ForgetRequest(dryRun, NormalPolicy(policy), scope))
  {
    var args := ForgetHead(engine, repoPath) + ForgetTail(dryRun, policy, scope);
    assert args[3..] == ForgetTail(dryRun, policy, scope);
    ParseForgetTailRoundTrip(dryRun, policy, scope);
  }

  // ---------------------------------------------------------------------
  // waitForPath

  /** What `fs.stat` reports: a directory, something else, no entry, or
      another error with its message. */
  datatype StatOutcome = IsDir | NotDir | NoEnt | Failed(message: string)

  const NotDirPrefix: string := "is not a directory: "
  const TimeoutPrefix: string := "waitForPath timed out for: "

  /** `waitForPath` as the source writes it, recursively, from attempt k on. */
  function WaitFrom(dir: string, retry: int, answers: nat -> StatOutcome, k: nat): Result<bool>
    decreases if retry < 0 then 0 else retry
  {
    match answers(k)
    case IsDir => Ok(true)
    case NotDir => Err(NotDirPrefix + dir)
    case Failed(m) => Err(m)
    case NoEnt => if retry < 1 then Err(TimeoutPrefix + dir) else WaitFrom(dir, retry - 1, answers, k + 1)
  }

  function Budget(retry: int): nat
  {
    if retry < 0 then 0 else retry
  }

  /** `waitForPath` as a loop: stat, and on "no entry" sleep and retry while
      the budget lasts.  It makes at most budget+1 attempts and sleeps once
      between two attempts; every attempt but the last saw "no entry", and
      the last one decides: a directory gives true, anything else but "no
      entry" fails at once, and "no entry" with the budget spent times
      out. */
  method WaitForPath(dir: string, retry: int, answers: nat -> StatOutcome)
    returns (r: Result<bool>, attempts: nat, sleeps: nat)
    ensures r == WaitFrom(dir, retry, answers, 0)
    ensures 1 <= attempts <= Budget(retry) + 1 && sleeps == attempts - 1
    ensures forall i :: 0 <= i < attempts - 1 ==> answers(i) == NoEnt
    ensures answers(attempts - 1) == IsDir <==> r == Ok(true)
    ensures answers(attempts - 1) == NotDir ==> r == Err(NotDirPrefix + dir)
    ensures answers(attempts - 1).Failed? ==> r == Err(answers(attempts - 1).message)
    ensures answers(attempts - 1) == NoEnt ==> attempts == Budget(retry) + 1 && r == Err(TimeoutPrefix + dir)
  {
    var left := retry;
    var outcome := answers(0);
    attempts := 1;
    sleeps := 0;
    while outcome == NoEnt && left >= 1
      invariant 1 <= attempts && sleeps == attempts - 1 && left == retry - sleeps
      invariant sleeps <= Budget(retry) && (retry >= 0 ==> left >= 0)
      invariant outcome == answers(attempts - 1)
      invariant forall i :: 0 <= i < attempts - 1 ==> answers(i) == NoEnt
      invariant WaitFrom(dir, retry, answers, 0) == WaitFrom(dir, left, answers, attempts - 1)
      decreases left
    {
      sleeps := sleeps + 1;
      left := left - 1;
      outcome := answers(attempts);
      attempts := attempts + 1;
    }
    match outcome
    case IsDir => r := Ok(true);
    case NotDir => r := Err(NotDirPrefix + dir);
    case Failed(m) => r := Err(m);
    case NoEnt => r := Err(TimeoutPrefix + dir);
  }

  /** A mount path that never appears is polled six times under the budget
      of five before the wait times out; one that appears at the fourth poll
      is found there. */
  method PollExamples(dir: string) returns (never: Result<bool>, neverAttempts: nat, late: Result<bool>, lateAttempts: nat)
    ensures never == Err(TimeoutPrefix + dir) && neverAttempts == 6
    ensures late == Ok(true) && lateAttempts == 4
  {
    var sleeps;
    never, neverAttempts, sleeps := WaitForPath(dir, WaitBudget, (i: nat) => NoEnt);
    late, lateAttempts, sleeps := WaitForPath(dir, WaitBudget, (i: nat) => if i < 3 then NoEnt else IsDir);
  }

  /** The awaited mount path: `Path.join(base, 'tags', path.substring(1),
      'latest', path.substring(1))`. */
  function MountedPath(sep: char, base: string, path: string): string
  {
    var rel := if |path| >= 1 then path[1..] else "";
    JoinPath([base, "tags", rel, "latest", rel], sep)
  }

  /** The awaited path spelled out: base, "tags", the path without its
      first character, "latest", and that again. */
  lemma MountedPathShape(sep: char, base: string, path: string)
    requires base != "" && |path| >= 2
    ensures MountedPath(sep, base, path)
      == base + [sep] + "tags" + [sep] + path[1..] + [sep] + "latest" + [sep] + path[1..]
  {
    var rel := path[1..];
    var segs := [base, "tags", rel, "latest", rel];
    NonEmptyCons(rel, []);
    assert [rel] + [] == [rel];
    NonEmptyCons("latest", [rel]);
    assert ["latest"] + [rel] == segs[3..];
    NonEmptyCons(rel, segs[3..]);
    assert [rel] + segs[3..] == segs[2..];
    NonEmptyCons("tags", segs[2..]);
    assert ["tags"] + segs[2..] == segs[1..];
    NonEmptyCons(base, segs[1..]);
    assert [base] + segs[1..] == segs;
    assert NonEmpty(segs) == segs;
    assert Join(segs[3..], sep) == "latest" + [sep] + rel;
    assert Join(segs[2..], sep) == rel + [sep] + Join(segs[3..], sep);
    assert Join(segs[1..], sep) == "tags" + [sep] + Join(segs[2..], sep);
    assert Join(segs, sep) == base + [sep] + Join(segs[1..], sep);
  }

  /** Example: mounting "/home/u" under "/tmp/m" waits for
      "/tmp/m/tags/home/u/latest/home/u". */
  lemma MountedPathExample()
    ensures MountedPath('/', "/tmp/m", "/home/u") == "/tmp/m/tags/home/u/latest/home/u"
  {
    MountedPathShape('/', "/tmp/m", "/home/u");
    assert "/home/u"[1..] == "home/u";
  }

  const BusyError: string := "a restic process is already running"
  const NoPathsError: string := "no paths specified"
  const NotMountedError: string := "not mounted"
  const WaitBudget: int := 5

  /** The process `backup` makes for one path: the engine binary with that
      path's arguments, the profile's environment and that path's entry. */
  ghost predicate BackupProcess(engine: Engine, host: Host, profile: RepoProfile, info: BackupInfo, p: Process)
  {
    && p.cmd == FullBinPath(engine, host)
    && p.args == BackupArgv(engine, ExcludeFlags(ExcludePrefix(engine), profile.repoPath, profile.exclude), profile.repoPath, info)
    && p.env == ProfileEnv(engine, host, profile)
    && p.info == info
  }

  /** The processes of a backup batch: one per path, in order, all distinct. */
  ghost predicate BackupProcesses(engine: Engine, host: Host, profile: RepoProfile, paths: seq<BackupInfo>, ps: seq<Process>)
  {
    && |ps| == |paths|
    && (forall i :: 0 <= i < |ps| ==> BackupProcess(engine, host, profile, paths[i], ps[i]))
    && (forall i, j :: 0 <= i < j < |ps| ==> ps[i] != ps[j])
  }

  /** One more process for the next path keeps the batch well formed. */
  lemma BackupProcessesSnoc(engine: Engine, host: Host, profile: RepoProfile, paths: seq<BackupInfo>, i: nat,
                            ps: seq<Process>, p: Process)
    requires i < |paths| && BackupProcesses(engine, host, profile, paths[..i], ps)
    requires BackupProcess(engine, host, profile, paths[i], p) && p !in ps
    ensures BackupProcesses(engine, host, profile, paths[..i + 1], ps + [p])
  {
    assert paths[..i + 1] == paths[..i] + [paths[i]];
  }

  class Backend {
    const engine: Engine
    const host: Host
    var runningProcess: BatchProcess?
    var currentMount: Process?
    /** Every process `mount` has started. */
    ghost var mounts: set<Process>

    constructor (engine: Engine, host: Host)
      ensures this.engine == engine && this.host == host
      ensures runningProcess == null && currentMount == null && mounts == {}
    {
      this.engine := engine;
      this.host := host;
      runningProcess := null;
      currentMount := null;
      mounts := {};
    }

    function HasRunningProcess(): (r: bool)
      reads this
      ensures r <==> runningProcess != null
    {
      runningProcess != null
    }

    /** The synchronous head of `backup`, up to its `await`: refuses while a
        batch runs and refuses an empty path list; changes nothing. */
    method BackupCheck(paths: seq<BackupInfo>) returns (r: Result<Unit>)
      ensures runningProcess != null ==> r == Err(BusyError)
      ensures runningProcess == null && paths == [] ==> r == Err(NoPathsError)
      ensures runningProcess == null && paths != [] ==> r == Ok(Unit)
    {
      if runningProcess != null {
        return Err(BusyError);
      }
      if |paths| == 0 {
        return Err(NoPathsError);
      }
      r := Ok(Unit);
    }

    /** The continuation of `backup` after its `await`: builds one process
        per path, starts the batch and records it as running, over whatever
        was recorded in the meantime.  The guard is not checked again. */
    method BackupResume(profile: RepoProfile, paths: seq<BackupInfo>) returns (batch: BatchProcess)
      requires paths != []
      modifies this`runningProcess
      ensures fresh(batch) && runningProcess == batch
      ensures BackupProcesses(engine, host, profile, paths, batch.processes)
      ensures fresh(batch.processes[0])
      ensures batch.Valid() && batch.running && batch.current == 0 && batch.phase == Awaiting
      ensures batch.promise == Pending && batch.launched == [0]
      ensures batch.processes[0].spawnEnv == Some(Merge(host.env, ProfileEnv(engine, host, profile)))
      ensures batch.processes[0].promise == Some(Pending)
      ensures forall i :: 1 <= i < |paths| ==> fresh(batch.processes[i]) && batch.processes[i].promise == None
    {
      var processes := BackupBatchProcesses(profile, paths);
      batch := new BatchProcess(processes);
      batch.Start(host.env);
      runningProcess := batch;
    }

    /** `backup` when no other call runs during its `await`: the guard, then
        the batch. */
    method Backup(profile: RepoProfile, paths: seq<BackupInfo>) returns (r: Result<BatchProcess>)
      modifies this`runningProcess
      ensures old(runningProcess) != null ==> r == Err(BusyError) && runningProcess == old(runningProcess)
      ensures old(runningProcess) == null && paths == [] ==> r == Err(NoPathsError) && runningProcess == null
      ensures old(runningProcess) == null && paths != [] ==>
        && r.Ok? && fresh(r.value) && runningProcess == r.value
        && BackupProcesses(engine, host, profile, paths, r.value.processes)
        && fresh(r.value.processes[0])
        && r.value.Valid() && r.value.running && r.value.current == 0 && r.value.phase == Awaiting
        && r.value.promise == Pending && r.value.launched == [0]
        && r.value.processes[0].spawnEnv == Some(Merge(host.env, ProfileEnv(engine, host, profile)))
        && r.value.processes[0].promise == Some(Pending)
        && (forall i :: 1 <= i < |paths| ==> fresh(r.value.processes[i]) && r.value.processes[i].promise == None)
    {
      var check := BackupCheck(paths);
      if check.Err? {
        return Err(check.msg);
      }
      var batch := BackupResume(profile, paths);
      r := Ok(batch);
    }

    /** The processes `backup` puts in its batch, none of them started. */
    method BackupBatchProcesses(profile: RepoProfile, paths: seq<BackupInfo>) returns (processes: seq<Process>)
      ensures BackupProcesses(engine, host, profile, paths, processes)
      ensures forall j :: 0 <= j < |processes| ==> fresh(processes[j]) && processes[j].promise == None
    {
      var bin := FullBinPath(engine, host);
      var env := ProfileEnv(engine, host, profile);
      var exclude := BuildExclude(ExcludePrefix(engine), profile.repoPath, profile.exclude);
      assert exclude == ExcludeFlags(ExcludePrefix(engine), profile.repoPath, profile.exclude);
      processes := [];
      var i := 0;
      while i < |paths|
        invariant 0 <= i <= |paths|
        invariant BackupProcesses(engine, host, profile, paths[..i], processes)
        invariant forall j :: 0 <= j < i ==> fresh(processes[j]) && processes[j].promise == None
      {
        var p := new Process(bin, BackupArgv(engine, exclude, profile.repoPath, paths[i]), env, paths[i]);
        BackupProcessesSnoc(engine, host, profile, paths, i, processes, p);
        processes := processes + [p];
        i := i + 1;
      }
      assert paths[..i] == paths;
    }

    /** The `.then` after the batch settles, resolved or rejected: the
        backend no longer has a running batch. */
    method OnBackupSettled(b: BatchProcess)
      requires !b.promise.Pending?
      modifies this`runningProcess
      ensures runningProcess == null
    {
      runningProcess := null;
    }

    /** `mount`.  rustic refuses.  restic clears a disconnected mount, stops
        a connected one for another path, and reuses a connected one for the
        same path; otherwise it starts a new mount process.  Either way it
        then waits for the path under the base directory of this call. */
    method Mount(profile: RepoProfile, path: string, base: string, answers: nat -> StatOutcome)
      returns (r: Result<Process>)
      modifies this`currentMount, this`mounts, if currentMount != null then {currentMount} else {}
      ensures engine == Rustic ==> r == Err(RusticCommands.MountError) && unchanged(this)
      ensures engine == Rustic && old(currentMount) != null ==> unchanged(old(currentMount))
      ensures engine == Restic ==>
        var m := old(currentMount);
        var reuse := m != null && m.connected && m.info.path == path;
        && (reuse ==> currentMount == m && mounts == old(mounts) && unchanged(m))
        && (m != null && !m.connected ==> unchanged(m))
        && (m != null && m.connected && m.info.path != path ==>
          && m.killed && m.promise == old(m.promise) && m.connected == old(m.connected)
          && m.spawnEnv == old(m.spawnEnv))
        && (!reuse ==>
          && currentMount != null && fresh(currentMount) && mounts == old(mounts) + {currentMount}
          && currentMount.cmd == FullBinPath(engine, host)
          && currentMount.args == ResticCommands.MountArgv(path, profile.repoPath, base)
          && currentMount.env == ProfileEnv(engine, host, profile)
          && currentMount.info == BackupInfo(path)
          && currentMount.spawnEnv == Some(Merge(host.env, currentMount.env))
          && currentMount.promise == Some(Pending))
        && var w := WaitFrom(MountedPath(host.sep, base, path), WaitBudget, answers, 0);
          && (w.Ok? ==> r == Ok(currentMount))
          && (w.Err? ==> r == Err(w.msg))
    {
      if engine == Rustic {
        return Err(RusticCommands.MountError);
      }
      ReleaseMount(path);
      var mountPath := base;
      if currentMount == null {
        StartMount(profile, path, mountPath);
      }
      var fullPath := MountedPath(host.sep, mountPath, path);
      var w, _, _ := WaitForPath(fullPath, WaitBudget, answers);
      if w.Err? {
        return Err(w.msg);
      }
      r := Ok(currentMount);
    }

    /** The head of `mount`: a disconnected mount is forgotten as it is, a
        connected one for another path is stopped and forgotten, and a
        connected one for the same path stays. */
    method ReleaseMount(path: string)
      modifies this`currentMount, if currentMount != null then {currentMount} else {}
      ensures var m := old(currentMount);
        && (m == null ==> currentMount == null)
        && (m != null && !m.connected ==> currentMount == null && unchanged(m))
        && (m != null && m.connected && m.info.path == path ==> currentMount == m && unchanged(m))
        && (m != null && m.connected && m.info.path != path ==>
          && currentMount == null && m.killed && m.promise == old(m.promise)
          && m.connected == old(m.connected) && m.spawnEnv == old(m.spawnEnv))
    {
      if currentMount != null {
        if !currentMount.connected {
          currentMount := null;
        } else if currentMount.info.path != path {
          currentMount.Stop();
          currentMount := null;
        }
      }
    }

    /** A new restic mount process for the path under the base directory,
        started and recorded as the current mount. */
    method StartMount(profile: RepoProfile, path: string, base: string)
      modifies this`currentMount, this`mounts
      ensures currentMount != null && fresh(currentMount) && mounts == old(mounts) + {currentMount}
      ensures currentMount.cmd == FullBinPath(engine, host)
      ensures currentMount.args == ResticCommands.MountArgv(path, profile.repoPath, base)
      ensures currentMount.env == ProfileEnv(engine, host, profile)
      ensures currentMount.info == BackupInfo(path)
      ensures currentMount.spawnEnv == Some(Merge(host.env, currentMount.env))
      ensures currentMount.promise == Some(Pending)
    {
      var p := new Process(FullBinPath(engine, host), ResticCommands.MountArgv(path, profile.repoPath, base),
                           ProfileEnv(engine, host, profile), BackupInfo(path));
      currentMount := p;
      mounts := mounts + {p};
      p.Start(host.env);
    }

    /** The `.then` after a mount process settles: the backend forgets its
        current mount, whichever process that is by now. */
    method OnMountSettled(p: Process)
      requires p in mounts && p.promise.Some? && !p.promise.value.Pending?
      modifies this`currentMount
      ensures currentMount == null
    {
      currentMount := null;
    }

    /** `unmount`: fails when there is no mount or it was killed; otherwise
        stops it, and it stays the current mount. */
    method Unmount() returns (r: Result<Unit>)
      modifies if currentMount != null then {currentMount} else {}
      ensures currentMount == old(currentMount)
      ensures old(currentMount) == null || old(currentMount.killed) ==> r == Err(NotMountedError)
      ensures old(currentMount) != null && old(currentMount.killed) ==> unchanged(currentMount)
      ensures old(currentMount) != null && !old(currentMount.killed) ==>
        && r == Ok(Unit) && currentMount.killed
        && currentMount.promise == old(currentMount.promise) && currentMount.connected == old(currentMount.connected)
        && currentMount.spawnEnv == old(currentMount.spawnEnv)
    {
      if currentMount == null || currentMount.killed {
        return Err(NotMountedError);
      }
      currentMount.Stop();
      r := Ok(Unit);
    }

    /** `restore`: starts one process restoring the latest snapshot of the
        path into the target. */
    method Restore(profile: RepoProfile, path: string, targetPath: string) returns (p: Process)
      ensures fresh(p)
      ensures p.cmd == FullBinPath(engine, host)
      ensures p.args == RestoreArgv(engine, path, profile.repoPath, targetPath)
      ensures p.env == ProfileEnv(engine, host, profile) && p.info == BackupInfo(path)
      ensures p.spawnEnv == Some(Merge(host.env, p.env)) && p.promise == Some(Pending)
    {
      p := new Process(FullBinPath(engine, host), RestoreArgv(engine, path, profile.repoPath, targetPath),
                       ProfileEnv(engine, host, profile), BackupInfo(path));
      p.Start(host.env);
    }
  }

  /** A second backup is refused while the first batch runs and accepted
      again once it has settled, whether it resolved or rejected. */
  method SingleFlight(b: Backend, profile: RepoProfile, paths: seq<BackupInfo>, code: Option<int>)
    returns (first: Result<BatchProcess>, second: Result<BatchProcess>, third: Result<BatchProcess>)
    requires b.runningProcess == null && paths != []
    modifies b
    ensures first.Ok? && second == Err(BusyError) && third.Ok? && third.value != first.value
  {
    first := b.Backup(profile, paths);
    second := b.Backup(profile, paths);
    SettleFirst(b, first.value, code);
    third := b.Backup(profile, paths);
  }

  /** The first process of a running batch exits with `code`; the batch
      settles, by its own rejection or by being stopped, and the backend
      hears of it. */
  method SettleFirst(b: Backend, batch: BatchProcess, code: Option<int>)
    requires batch.Valid() && batch.running && batch.phase == Awaiting && batch.current == 0
    requires batch.promise == Pending && batch.processes[0].promise == Some(Pending)
    modifies b`runningProcess, batch, batch.processes[0]
    ensures b.runningProcess == null && !batch.promise.Pending?
  {
    var p := batch.processes[0];
    p.OnExit(code);
    batch.Resume();
    if batch.phase == Idle {
      b.OnBackupSettled(batch);
    } else {
      var s := batch.Stop();
      b.OnBackupSettled(batch);
    }
  }

  /** Two `backup` calls whose `await`s overlap: both pass the guard, both
      start a batch, the second overwrites `runningProcess`, and when the
      first batch settles its `.then` clears `runningProcess` while the
      second batch still runs. */
  method OverlappingBackups(b: Backend, profile: RepoProfile, paths: seq<BackupInfo>, code: Option<int>)
    returns (first: BatchProcess, second: BatchProcess)
    requires b.runningProcess == null && paths != []
    modifies b
    ensures first != second && !first.promise.Pending?
    ensures second.running && second.promise == Pending
    ensures b.runningProcess == null
  {
    var check1 := b.BackupCheck(paths);
    var check2 := b.BackupCheck(paths);
    assert check1.Ok? && check2.Ok?;
    first := b.BackupResume(profile, paths);
    second := b.BackupResume(profile, paths);
    assert b.runningProcess == second;
    SettleFirst(b, first, code);
  }
}
