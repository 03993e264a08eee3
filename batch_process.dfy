/** `BatchProcess` (src/service/model/batch-process.ts): runs its processes one
    after another, advancing a cursor after each success and rejecting on the
    first failure.  The asynchronous `#nextProcess` is cut at its awaits into
    steps that the environment drives: `Resume` runs when the current
    process's promise has settled, and `Wake` when the 300 ms sleep after a
    success is over. */
module Batches {
  import opened Wrappers
  import opened Processes

  /** Where the `#nextProcess` chain stands: not waiting on anything, awaiting
      the current process, or sleeping after its success.  Listeners on the
      current process's streams are attached exactly while not Idle. */
  datatype Phase = Idle | Awaiting | Sleeping

  /** Which stream of a process a chunk came from. */
  datatype Stream = StdOut | StdErr

  const StopAfterEndError: string := "TypeError: Cannot read properties of undefined (reading 'stop')"

  class BatchProcess {
    const processes: seq<Process>
    var current: nat
    var running: bool
    var phase: Phase
    /** The batch's promise. */
    var promise: Settlement
    /** The chunks pushed onto the batch's stdout and stderr streams. */
    var stdout: seq<string>
    var stderr: seq<string>
    /** The indices of the processes started, in order. */
    ghost var launched: seq<nat>

    ghost predicate Valid()
      reads this
    {
      && current <= |processes|
      && (phase != Idle ==> current < |processes| && |launched| > 0 && launched[|launched| - 1] == current)
      && (forall i :: 0 <= i < |launched| ==> launched[i] <= current)
      && (forall i, j :: 0 <= i < j < |launched| ==> launched[i] <= launched[j])
      && stderr == []
    }

    constructor (p: seq<Process>)
      ensures Valid()
      ensures processes == p && current == 0 && !running && phase == Idle
      ensures promise == Pending && stdout == [] && stderr == [] && launched == []
    {
      processes := p;
      current := 0;
      running := false;
      phase := Idle;
      promise := Pending;
      stdout := [];
      stderr := [];
      launched := [];
    }

    /** `start`: a no-op while running; otherwise sets `running` and starts
        the process at the cursor. */
    method Start(ambient: Env)
      requires Valid()
      requires running || phase == Idle
      modifies this, if current < |processes| then {processes[current]} else {}
      ensures Valid() && running
      ensures old(running) ==> unchanged(this)
      ensures old(running) && current < |processes| ==> unchanged(processes[current])
      ensures !old(running) && current < |processes| ==>
        && phase == Awaiting && promise == old(promise) && launched == old(launched) + [current]
        && processes[current].spawnEnv == Some(Merge(ambient, processes[current].env))
        && processes[current].promise == Some(Pending)
      ensures !old(running) && current == |processes| ==>
        phase == Idle && promise == Settle(old(promise), Resolved) && launched == old(launched)
      ensures current == old(current) && stdout == old(stdout)
    {
      if running {
        return;
      }
      running := true;
      NextProcess(ambient);
    }

    /** The head of `#nextProcess`: nothing once stopped; resolves the batch
        past the last process; otherwise starts the current process and
        attaches the listeners. */
    method NextProcess(ambient: Env)
      requires Valid() && phase == Idle
      modifies this, if current < |processes| then {processes[current]} else {}
      ensures Valid()
      ensures current == old(current) && running == old(running) && stdout == old(stdout)
      ensures !running ==> unchanged(this)
      ensures !running && current < |processes| ==> unchanged(processes[current])
      ensures running && current == |processes| ==>
        promise == Settle(old(promise), Resolved) && phase == Idle && launched == old(launched)
      ensures running && current < |processes| ==>
        && promise == old(promise) && phase == Awaiting && launched == old(launched) + [current]
        && processes[current].spawnEnv == Some(Merge(ambient, processes[current].env))
        && processes[current].promise == Some(Pending)
    {
      if !running {
        return;
      }
      if current == |processes| {
        promise := Settle(promise, Resolved);
        return;
      }
      processes[current].Start(ambient);
      phase := Awaiting;
      launched := launched + [current];
    }

    /** The continuation of `await process.waitForFinish()`: a rejection
        rejects the batch and ends the chain with the cursor where it is; a
        success goes on to the sleep. */
    method Resume()
      requires Valid() && phase == Awaiting
      requires processes[current].promise.Some? && !processes[current].promise.value.Pending?
      modifies this
      ensures Valid()
      ensures current == old(current) && running == old(running) && stdout == old(stdout)
      ensures launched == old(launched)
      ensures processes[current].promise.value.Rejected? ==>
        phase == Idle && promise == Settle(old(promise), processes[current].promise.value)
      ensures processes[current].promise.value.Resolved? ==>
        phase == Sleeping && promise == old(promise)
    {
      if processes[current].promise.value.Rejected? {
        promise := Settle(promise, processes[current].promise.value);
        phase := Idle;
      } else {
        phase := Sleeping;
      }
    }

    /** After the sleep: the listeners are detached, the cursor moves on by
        one and `#nextProcess` runs again. */
    method Wake(ambient: Env)
      requires Valid() && phase == Sleeping
      modifies this, if current + 1 < |processes| then {processes[current + 1]} else {}
      ensures Valid()
      ensures current == old(current) + 1
      ensures running == old(running) && stdout == old(stdout)
      ensures !running ==> phase == Idle && promise == old(promise) && launched == old(launched)
      ensures !running && current < |processes| ==> unchanged(processes[current])
      ensures running && current == |processes| ==>
        phase == Idle && promise == Settle(old(promise), Resolved) && launched == old(launched)
      ensures running && current < |processes| ==>
        && phase == Awaiting && promise == old(promise) && launched == old(launched) + [current]
        && processes[current].promise == Some(Pending)
    {
      phase := Idle;
      current := current + 1;
      NextProcess(ambient);
    }

    /** A chunk on either stream of `src` goes to the batch's stdout while
        `src` is the attached current process; the batch's stderr never
        receives anything. */
    method OnData(src: Process, stream: Stream, chunk: string)
      requires Valid()
      modifies this`stdout
      ensures Valid()
      ensures phase != Idle && src == processes[current] ==> stdout == old(stdout) + [chunk]
      ensures !(phase != Idle && src == processes[current]) ==> stdout == old(stdout)
    {
      if phase != Idle && src == processes[current] {
        stdout := stdout + [chunk];
      }
    }

    /** `stop`: a no-op when not running; otherwise clears `running`, stops
        the process at the cursor and resolves the batch.  Past the last
        process there is none to stop and the call throws, with `running`
        already cleared. */
    method Stop() returns (r: Result<Unit>)
      requires Valid()
      modifies this, if current < |processes| then {processes[current]} else {}
      ensures Valid()
      ensures current == old(current) && phase == old(phase) && stdout == old(stdout)
      ensures launched == old(launched)
      ensures !old(running) ==> r == Ok(Unit) && unchanged(this)
      ensures !old(running) && current < |processes| ==> unchanged(processes[current])
      ensures old(running) && current < |processes| ==>
        && r == Ok(Unit) && !running && processes[current].killed
        && processes[current].promise == old(processes[current].promise)
        && processes[current].spawnEnv == old(processes[current].spawnEnv)
        && processes[current].connected == old(processes[current].connected)
        && promise == Settle(old(promise), Resolved)
      ensures old(running) && current == |processes| ==>
        r == Err(StopAfterEndError) && !running && promise == old(promise)
    {
      if !running {
        return Ok(Unit);
      }
      running := false;
      if current == |processes| {
        return Err(StopAfterEndError);
      }
      processes[current].Stop();
      promise := Settle(promise, Resolved);
      r := Ok(Unit);
    }

    function IsRunning(): (r: bool)
      reads this
      ensures r <==> running
    {
      running
    }
  }

  // ---------------------------------------------------------------------
  // a whole run without stop

  predicate Succeeds(code: Option<int>)
  {
    ExitOutcome(code) == Resolved
  }

  /** The index of the first failing exit code, or the number of codes. */
  function FirstFailure(codes: seq<Option<int>>, i: nat): (k: nat)
    requires i <= |codes|
    ensures i <= k <= |codes|
    ensures forall j :: i <= j < k ==> Succeeds(codes[j])
    ensures k < |codes| ==> !Succeeds(codes[k])
    decreases |codes| - i
  {
    if i == |codes| || !Succeeds(codes[i]) then i else FirstFailure(codes, i + 1)
  }

  /** How a batch ends when process i exits with codes[i]: resolved if all
      succeed, otherwise rejected with the first failure. */
  function Verdict(codes: seq<Option<int>>): Settlement
  {
    var k := FirstFailure(codes, 0);
    if k == |codes| then Resolved else ExitOutcome(codes[k])
  }

  lemma VerdictIff(codes: seq<Option<int>>)
    ensures Verdict(codes) == Resolved <==> forall j :: 0 <= j < |codes| ==> Succeeds(codes[j])
    ensures Verdict(codes).Rejected? <==> exists j :: 0 <= j < |codes| && !Succeeds(codes[j])
  {
  }

  function Upto(n: nat): (r: seq<nat>)
    ensures |r| == n && forall i :: 0 <= i < n ==> r[i] == i
  {
    seq(n, i requires 0 <= i < n => i)
  }

  /** One turn of a batch left to run: the awaited process exits with its
      code, and the batch either moves on to the next process, or settles
      with the verdict. */
  method RunStep(b: BatchProcess, ambient: Env, codes: seq<Option<int>>)
    requires b.Valid() && b.running && b.phase == Awaiting && |codes| == |b.processes|
    requires b.current <= FirstFailure(codes, 0)
    requires b.promise == Pending && b.launched == Upto(b.current + 1)
    requires b.processes[b.current].promise == Some(Pending)
    modifies b, b.processes
    ensures b.Valid() && b.running && b.phase != Sleeping
    ensures b.current <= FirstFailure(codes, 0)
    ensures b.phase == Awaiting ==>
      && b.current == old(b.current) + 1
      && b.promise == Pending && b.launched == Upto(b.current + 1)
      && b.processes[b.current].promise == Some(Pending)
    ensures b.phase == Idle ==>
      && b.promise == Verdict(codes) && b.current == FirstFailure(codes, 0)
      && b.launched == Upto(if b.current < |codes| then b.current + 1 else |codes|)
  {
    var k := b.current;
    var p := b.processes[k];
    p.OnExit(codes[k]);
    assert p.promise == Some(ExitOutcome(codes[k]));
    b.Resume();
    if b.phase == Sleeping {
      assert Succeeds(codes[k]);
      WakeStep(b, ambient, codes);
    } else {
      assert !Succeeds(codes[k]);
    }
  }

  /** The end of a successful turn: after the sleep the batch starts the
      next process, or resolves when there is none. */
  method WakeStep(b: BatchProcess, ambient: Env, codes: seq<Option<int>>)
    requires b.Valid() && b.running && b.phase == Sleeping && |codes| == |b.processes|
    requires b.current < FirstFailure(codes, 0)
    requires b.promise == Pending && b.launched == Upto(b.current + 1)
    modifies b, b.processes
    ensures b.Valid() && b.running && b.phase != Sleeping
    ensures b.current == old(b.current) + 1 && b.current <= FirstFailure(codes, 0)
    ensures b.phase == Awaiting ==>
      && b.promise == Pending && b.launched == Upto(b.current + 1)
      && b.processes[b.current].promise == Some(Pending)
    ensures b.phase == Idle ==>
      && b.promise == Verdict(codes) && b.current == FirstFailure(codes, 0)
      && b.launched == Upto(if b.current < |codes| then b.current + 1 else |codes|)
  {
    var k := b.current;
    assert b.launched + [k + 1] == Upto(k + 2);
    b.Wake(ambient);
  }

  /** A fresh batch started and left to run, where process i exits with
      codes[i]: processes are started one at a time in index order up to and
      including the first failure and none after it, the batch settles with
      the verdict, the cursor stops at the failing process, and `running`
      stays set. */
  method RunBatch(b: BatchProcess, ambient: Env, codes: seq<Option<int>>)
    requires b.Valid() && !b.running && b.phase == Idle && b.current == 0
    requires b.promise == Pending && b.launched == [] && b.stdout == []
    requires |codes| == |b.processes|
    modifies b, b.processes
    ensures b.Valid() && b.running && b.phase == Idle
    ensures b.promise == Verdict(codes)
    ensures b.current == FirstFailure(codes, 0)
    ensures b.launched == Upto(if b.current < |codes| then b.current + 1 else |codes|)
  {
    b.Start(ambient);
    assert Upto(0) == [] && Upto(1) == [0];
    while b.phase == Awaiting
      invariant b.Valid() && b.running && b.phase != Sleeping
      invariant b.current <= FirstFailure(codes, 0)
      invariant b.phase == Awaiting ==> b.promise == Pending && b.launched == Upto(b.current + 1)
      invariant b.phase == Awaiting ==> b.processes[b.current].promise == Some(Pending)
      invariant b.phase == Idle ==>
        && b.promise == Verdict(codes) && b.current == FirstFailure(codes, 0)
        && b.launched == Upto(if b.current < |codes| then b.current + 1 else |codes|)
      decreases |codes| - b.current, if b.phase == Awaiting then 1 else 0
    {
      RunStep(b, ambient, codes);
    }
  }

  /** `stop` while a process is awaited resolves the batch at once; that
      process failing afterwards changes nothing, and nothing further is
      started, though the chain still runs to its end. */
  method StopWins(b: BatchProcess, ambient: Env, code: Option<int>) returns (r: Result<Unit>)
    requires b.Valid() && b.running && b.phase == Awaiting && b.promise == Pending
    requires b.processes[b.current].promise == Some(Pending)
    modifies b, b.processes
    ensures r == Ok(Unit)
    ensures b.Valid() && !b.running && b.phase == Idle && b.promise == Resolved
    ensures b.launched == old(b.launched)
    ensures b.processes[old(b.current)].killed
    ensures b.processes[old(b.current)].spawnEnv == old(b.processes[b.current].spawnEnv)
    ensures forall i :: 0 <= i < |b.processes| && b.processes[i] != b.processes[old(b.current)] ==>
      unchanged(b.processes[i])
  {
    r := b.Stop();
    var p := b.processes[b.current];
    p.OnExit(code);
    b.Resume();
    if b.phase == Sleeping {
      b.Wake(ambient);
    }
  }
}
