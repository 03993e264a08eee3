/** `Process` (src/service/model/process.ts): one engine command, its
    environment, and the promise that its exit settles.  Spawning, the child's
    streams and the operating system are not modelled; the child's `exit` and
    `error` events are method calls made by the environment. */
module Processes {
  import opened Wrappers
  import opened Text
  import opened Profiles

  /** An environment, `Record<string, string>`. */
  type Env = map<string, string>

  /** `{...base, ...overrides}`: every key of either, and an override wins. */
  function Merge(base: Env, overrides: Env): (r: Env)
    ensures r.Keys == base.Keys + overrides.Keys
    ensures forall k :: k in overrides ==> r[k] == overrides[k]
    ensures forall k :: k in base && k !in overrides ==> r[k] == base[k]
  {
    base + overrides
  }

  /** Merging the ambient environment in again changes nothing: the spawned
      environment of a command built as `{...ambient, ...e}` is that map. */
  lemma MergeAbsorbs(ambient: Env, e: Env)
    ensures Merge(ambient, Merge(ambient, e)) == Merge(ambient, e)
  {
    var lhs := Merge(ambient, Merge(ambient, e));
    var rhs := Merge(ambient, e);
    assert lhs.Keys == rhs.Keys;
    forall k | k in lhs ensures lhs[k] == rhs[k] {
      if k in e {
        assert lhs[k] == e[k];
      }
    }
  }

  /** The state of a promise. */
  datatype Settlement = Pending | Resolved | Rejected(reason: string)

  /** A promise settles once: settling again has no effect. */
  function Settle(s: Settlement, t: Settlement): Settlement
  {
    if s.Pending? then t else s
  }

  const ExitPrefix: string := "exit code: "

  /** The `exit` listener: a process succeeds exactly when it exits with 0
      or without a code; every other code fails with "exit code: <code>", a
      message the code reads back from, so that no two codes fail alike. */
  function ExitOutcome(code: Option<int>): (r: Settlement)
    ensures r == Resolved <==> code == None || code == Some(0)
    ensures r.Rejected? <==> code.Some? && code.value != 0
    ensures r.Rejected? ==> ExitCodeOf(r.reason) == code
  {
    if code.None? || code.value == 0 then Resolved
    else
      var reason := ExitPrefix + IntToString(code.value);
      assert reason[|ExitPrefix|..] == IntToString(code.value);
      ParseIntToString(code.value);
      Rejected(reason)
  }

  /** Reads the exit code back out of a rejection message. */
  function ExitCodeOf(reason: string): Option<int>
  {
    if StartsWith(reason, ExitPrefix) then ParseInt(reason[|ExitPrefix|..]) else None
  }

  class Process {
    const cmd: string
    const args: seq<string>
    const env: Env
    /** The backup entry the backends pass as a fourth argument. */
    const info: BackupInfo
    /** The environment handed to spawn; None before `start`. */
    var spawnEnv: Option<Env>
    /** `this.promise`: None (null) before `start`. */
    var promise: Option<Settlement>
    /** `isKilled()`/`isConnected()` of the process class the backends use;
        `stop()` sets `killed`, and the connection is reported by the
        environment. */
    var killed: bool
    var connected: bool

    ghost predicate Valid()
      reads this
    {
      spawnEnv.None? <==> promise.None?
    }

    /** Stores the command, arguments and environment as given and starts
        nothing. */
    constructor (cmd: string, args: seq<string>, env: Env, info: BackupInfo)
      ensures Valid()
      ensures this.cmd == cmd && this.args == args && this.env == env && this.info == info
      ensures spawnEnv == None && promise == None
      ensures !killed && !connected
    {
      this.cmd := cmd;
      this.args := args;
      this.env := env;
      this.info := info;
      spawnEnv := None;
      promise := None;
      killed := false;
      connected := false;
    }

    /** `start`: spawns with the ambient environment overridden by `env`,
        and creates a pending promise. */
    method Start(ambient: Env)
      modifies this`spawnEnv, this`promise
      ensures Valid()
      ensures spawnEnv == Some(Merge(ambient, env))
      ensures promise == Some(Pending)
    {
      spawnEnv := Some(Merge(ambient, env));
      promise := Some(Pending);
    }

    /** The child's `exit` event. */
    method OnExit(code: Option<int>)
      modifies this`promise
      ensures promise == if old(promise) == Some(Pending) then Some(ExitOutcome(code)) else old(promise)
    {
      if promise == Some(Pending) {
        promise := Some(ExitOutcome(code));
      }
    }

    /** The child's `error` event rejects with the error. */
    method OnError(reason: string)
      modifies this`promise
      ensures promise == if old(promise) == Some(Pending) then Some(Rejected(reason)) else old(promise)
    {
      if promise == Some(Pending) {
        promise := Some(Rejected(reason));
      }
    }

    /** `waitForFinish`: the promise, which is null until `start` has run. */
    function WaitForFinish(): (r: Option<Settlement>)
      requires Valid()
      reads this
      ensures r.None? <==> spawnEnv.None?
    {
      promise
    }

    method Stop()
      modifies this`killed
      ensures killed
    {
      killed := true;
    }

    method SetConnected(c: bool)
      modifies this`connected
      ensures connected == c
    {
      connected := c;
    }
  }

  /** Once an exit or error has settled a started process, no later event
      changes its outcome. */
  method SettlesOnce(p: Process, ambient: Env, first: Option<int>, later: Option<int>, reason: string)
    modifies p
    ensures p.promise == Some(ExitOutcome(first))
  {
    p.Start(ambient);
    p.OnExit(first);
    p.OnExit(later);
    p.OnError(reason);
  }
}
