# resticguigx backup orchestration, modelled in Dafny

resticguigx is a desktop front end for the restic and rustic backup tools.
This project models the layer that turns a backup, prune, restore, mount or
unlock request into command lines for either engine, and then supervises
those commands. The model covers:

- **Argument lists.** The exclude list, keep flags, forget scope, backup,
  restore and mount arguments for both engines, each with a decoder proved
  to recover what the list was built from.
- **The forget result.** Empty output gives nothing. Otherwise only the
  first line counts, and it is parsed only when it starts with `[`.
- **`Process`.** A class with a merged environment and an exit
  classification: code 0 or no code succeeds, and any other code rejects
  with "exit code: n". The promise settles once.
- **`BatchProcess`.** A class that runs its processes one at a time, moves
  its cursor forward only after a success, rejects on the first failure,
  and resolves at once on `stop`.
- **The backend.** A class with the single running batch and the current
  mount (reuse, replace, clear), `unmount`, `waitForPath` as a bounded
  retry loop, the binary path, and the `exec` environment merge.
- **Other pieces:**
  - the secret server's registry and its 400/404/200 decision;
  - `resizePath` over an array;
  - the unanchored profile-name pattern with the create and delete guards;
  - `UserProfile`'s `toStorage`/`fromStorage`.

Effects are parameters:
- running a command (`execFile`) is a function from invocation to output;
- `JSON.parse` is a function from text to result;
- `fs.stat` answers are a function from attempt number to outcome;
- the mount base directory, which the source makes from `os.tmpdir()` and
  `Date.now()`, is a parameter, and so is the random secret key.

Asynchronous methods are cut at their `await`s into steps that the
environment calls when the awaited event happens:
- `BatchProcess.Resume` runs when the current process settles, and
  `BatchProcess.Wake` when the 300 ms sleep ends.
- `Process.OnExit` and `Process.OnError` are the child's events.
- `Backend.BackupCheck` is `backup` up to its `await`, and
  `Backend.BackupResume` is the rest; `Backend.Backup` runs the two back to
  back.
- `Backend.OnBackupSettled` and `Backend.OnMountSettled` are the `.then`
  continuations.

Some consequences of the code that are easy to miss:
- No exit code is treated as partial success: exit code 3 fails like any
  other non-zero code, and only 0 or no code succeeds
  (`Processes.ExitOutcome`).
- When a progress line comes before the JSON array, the forget result is
  empty, because only the first line is read
  (`CommandParts.ForgetResultProgressFirst`).
- `waitForPath(dir, 5)` polls up to six times: one first attempt and five
  retries (`Backends.PollExamples`).
- When `mount` replaces a connected mount for another path, it stops the old
  mount and does not wait for its teardown.

A few behaviours of the code are surprising. They are proved as written:
- Stopping a batch after it has run past its last process throws a
  TypeError.
- A mount that is reused is still polled under a new base directory.
- When any mount process settles, the current mount is cleared, even if it
  is a newer one.
- Once the secret server has been stopped, `start` does nothing and a second
  `stop` fails.

## Model

| member | source | states |
|---|---|---|
| Paths.Abbreviated | src/service/paths.ts:8-9 | a component longer than one character becomes exactly its first character; a shorter one is kept |
| Paths.Truncated | src/service/paths.ts:17 | `substring(0, n)`: a prefix of the input, no longer than a non-negative bound |
| Paths.ResizePath | src/service/paths.ts:3-18 | the in-place loop over the split array returns the reference result `Resized`; a path that fits comes back unchanged; the result never exceeds a non-negative `maxLength` |
| Paths.FirstFitFits | src/service/paths.ts:7-13 | the loop returns at the earliest stage, counting from index 1, where a component longer than one character was just abbreviated and the join fits; when there is none, no such stage fits |
| Paths.ResizedFits | src/service/paths.ts:4-17 | the result is the path itself when it fits, and never longer than a non-negative bound |
| Paths.ResizedStage | src/service/paths.ts:5-13 | a returned stage has as many components (separators) as the input, component 0 untouched, every other component unchanged or cut to its first character |
| Paths.ResizedFallback | src/service/paths.ts:16-17 | when no stage fits, the result is a prefix of the last component as the loop left it: exactly `maxLength` characters when the bound is within its length, all of it when the bound reaches its length, and empty for a bound of zero or less |
| Paths.ResizedFirstOfFour | src/service/paths.ts:7-13 | a four-component path too long as it is but fitting once its second component is cut to one character comes back with exactly that cut |
| Paths.ResizedExample | src/service/paths.ts:3-18 | "/home/user/docs" with bound 12 becomes "/h/user/docs" |
| Profiles.Visible | src/service/model/profile.ts:30-32 | `toStorage`'s filter keeps exactly the entries whose key does not start with '_', with their values |
| Profiles.Overlay | src/service/model/profile.ts:34-41 | `fromStorage`'s effect keeps the profile's own key set: keys of the data that are not fields are ignored |
| Profiles.StorageRoundTrip | src/service/model/profile.ts:30-41 | reading back what `toStorage` wrote restores every field, whatever the target profile held |
| Profiles.UserProfile.constructor | src/service/model/profile.ts:14-24 | a new profile has the given name, empty repoPath, empty stats, info and backupDirs, passwordStrategy "file" and an empty storedSecred |
| Profiles.UserProfile.SetStoredSecret | src/service/model/profile.ts:26-28 | only `storedSecred` changes |
| Profiles.UserProfile.ToStorage | src/service/model/profile.ts:30-32 | the stored object holds every field of the profile with its value |
| Profiles.UserProfile.SetField | src/service/model/profile.ts:38 | assigning one own key changes that field only |
| Profiles.UserProfile.FromStorage | src/service/model/profile.ts:34-41 | the loop over the keys overwrites a field exactly when its key is in the data; all other fields are unchanged |
| UserStorage.MatchFromRuns | src/service/user-storage.ts:29 | the scanning matcher, from any position and current run, accepts exactly when a run of three class characters lies ahead |
| UserStorage.ValidProfileName | src/service/user-storage.ts:29 | the unanchored pattern accepts a name exactly when it contains three consecutive characters from [0-9a-z-._] anywhere |
| UserStorage.ValidProfileNameExamples | src/service/user-storage.ts:29-32 | "../../abc", "My Backup/xyz" and "home" pass; "ab", "ABC" and "a/b/c" fail |
| UserStorage.ProfileStorage.ListProfiles | src/service/user-storage.ts:23-27 | exactly the names of directory entries |
| UserStorage.ProfileStorage.CreateProfile | src/service/user-storage.ts:31-39 | an invalid name or an existing profile is refused without touching storage; otherwise exactly that directory is added and a fresh default profile is saved and returned |
| UserStorage.ProfileStorage.SaveProfile | src/service/user-storage.ts:41-45 | writes the stored form under the profile's name, which must be an existing profile directory |
| UserStorage.ProfileStorage.LoadProfile | src/service/user-storage.ts:47-53 | a missing file fails; otherwise a new profile with that name, overwritten from the stored data |
| UserStorage.ProfileStorage.DeleteProfile | src/service/user-storage.ts:55-61 | an invalid name or a missing profile is refused without change; otherwise exactly that profile and its file are removed |
| UserStorage.SaveThenLoad | src/service/user-storage.ts:41-53 | a profile saved and loaded again has every field it had when saved |
| Processes.Merge | src/service/model/process.ts:24-27 | the spawned environment has the keys of both maps, and the process's own entries win over the ambient ones |
| Processes.MergeAbsorbs | src/service/model/base-backend.ts:49-52 | merging the ambient environment again into an environment already built on it changes nothing |
| Processes.ExitOutcome | src/service/model/process.ts:31-33 | exit code 0 or no code resolves; every other code rejects, with a message from which the code reads back |
| Processes.Process.constructor | src/service/model/process.ts:11-15 | command, arguments and environment stored as given; nothing started, no promise |
| Processes.Process.Start | src/service/model/process.ts:17-37 | spawns with the ambient environment overridden by the process's own, and creates a pending promise |
| Processes.Process.OnExit | src/service/model/process.ts:31-34 | an exit settles a pending promise with the classification of its code and leaves a settled one alone |
| Processes.Process.OnError | src/service/model/process.ts:35 | an error rejects a pending promise and leaves a settled one alone |
| Processes.Process.WaitForFinish | src/service/model/process.ts:39-41 | null exactly until `start` has run |
| Processes.Process.Stop | src/service/model/base-backend.ts:96 | the process is killed |
| Processes.Process.SetConnected | src/service/model/restic.ts:154 | the connection state the backends ask with `isConnected` |
| Processes.SettlesOnce | src/service/model/process.ts:30-36 | after the first exit, later exits and errors do not change the outcome |
| Batches.BatchProcess.constructor | src/service/model/batch-process.ts:21-29 | the given processes, cursor 0, not running, a pending promise, empty streams |
| Batches.BatchProcess.Start | src/service/model/batch-process.ts:35-39 | a no-op while running, leaving the current process untouched; otherwise sets `running` and starts the process at the cursor, or resolves when there is none |
| Batches.BatchProcess.NextProcess | src/service/model/batch-process.ts:41-56 | does nothing once stopped, leaving the current process unstarted and untouched; resolves past the last process; otherwise starts the current process and records it as the next launched |
| Batches.BatchProcess.Resume | src/service/model/batch-process.ts:57-63 | a rejected process rejects the batch with its reason and ends the chain with the cursor unmoved; a success goes on to the sleep |
| Batches.BatchProcess.Wake | src/service/model/batch-process.ts:60-69 | after the sleep the cursor moves on by exactly one and the next process starts, or the batch resolves at the end; once stopped, the next process is left untouched |
| Batches.BatchProcess.OnData | src/service/model/batch-process.ts:49-56 | a chunk on either stream of the current process is pushed onto the batch's stdout; nothing else is forwarded and stderr stays empty |
| Batches.BatchProcess.Stop | src/service/model/batch-process.ts:84-89 | a no-op when not running, leaving the current process untouched; otherwise clears `running`, kills the current process (only its `killed` changes) and resolves; past the end it throws with `running` already cleared |
| Batches.BatchProcess.IsRunning | src/service/model/batch-process.ts:91-93 | the `running` flag |
| Batches.FirstFailure | src/service/model/batch-process.ts:41-70 | the index of the first failing exit, or the count: every earlier one succeeded |
| Batches.VerdictIff | src/service/model/batch-process.ts:41-70 | a batch resolves exactly when every process succeeds and rejects exactly when one fails |
| Batches.RunBatch | src/service/model/batch-process.ts:35-70 | left to run, a batch starts processes 0, 1, … one at a time, up to and including the first failure and none after it; it settles with the verdict, the cursor stops at the failure, and `running` stays set |
| Batches.StopWins | src/service/model/batch-process.ts:57-89 | `stop` while a process is awaited resolves the batch; that process failing later changes nothing, it is killed and not restarted, and every other process of the batch is left untouched |
| CommandParts.Prefixed | src/service/model/restic.ts:73-75 | one `prefix + item` per item, in order |
| CommandParts.PushEach | src/service/model/restic.ts:73-75 | the pushes append exactly the prefixed items to the list |
| CommandParts.StripAllIff | src/service/model/restic.ts:73-75 | stripping the prefix recovers the items exactly when the list is the prefixed items |
| CommandParts.RepoCommandsCarryRepo | src/service/model/restic.ts:17-42 | the snapshots, init and unlock arguments each name exactly the given repository |
| CommandParts.BuildExclude | src/service/model/restic.ts:67-77 | the pushes build the repository exclude, then the size flag only for a positive size, then one exclude per configured path |
| CommandParts.ParseExcludeRoundTrip | src/service/model/restic.ts:67-77 | the exclude list decodes to the repository, the size value (present only when positive) and the paths, in order |
| CommandParts.BuildKeep | src/service/model/restic.ts:121-126 | the five guarded pushes give the keep flags in the order last, hourly, daily, weekly, monthly, each only when set and non-zero |
| CommandParts.ParseKeepOneRoundTrip | src/service/model/restic.ts:122 | one keep flag decodes to its count, a zero count reading as absent |
| CommandParts.ParseKeepRoundTrip | src/service/model/restic.ts:121-129 | the keep flags decode to the policy they came from, zero counts reading as absent |
| CommandParts.ForgetScope | src/service/model/restic.ts:130-137 | a non-empty path list gives one tag per path and ignores the snapshot id; otherwise the snapshot id; with neither, "must provide paths or snapshotId" |
| CommandParts.BuildForget | src/service/model/restic.ts:115-137 | the pushes give the head, exactly one of `--dry-run`/`--prune`, the keep flags and the scope, or the scope error |
| CommandParts.ParseScopeArgs | src/service/model/restic.ts:130-137 | the scope arguments decode back to the scope |
| CommandParts.ParseForgetTailRoundTrip | src/service/model/restic.ts:115-137 | the forget arguments after the head decode to the mode, the normalised policy and the scope |
| CommandParts.ForgetResult | src/service/model/restic.ts:145-149 | empty output gives an empty list; any other result comes from parsing the first line, which starts with `[` |
| CommandParts.ForgetResultFirstLine | src/service/model/restic.ts:145-149 | empty output gives nothing; otherwise only the first line decides, parsed exactly when it starts with `[` |
| CommandParts.ForgetResultProgressFirst | src/service/model/restic.ts:148-149 | a progress line before the JSON array makes the result empty |
| ResticCommands.ParseBackupArgvRoundTrip | src/service/model/restic.ts:78-86 | a restic backup command line is the exclude list, then `--json backup --exclude-caches --tag=<path> -r=<repo> <path>`, and decodes to exactly those settings, with no password |
| ResticCommands.RestoreArgvCarries | src/service/model/restic.ts:196-203 | restore selects the path's tag from the repository into `--target`, from `latest` |
| ResticCommands.MountArgvCarries | src/service/model/restic.ts:167-173 | mount serves the path's tag from the repository at the mount directory |
| RusticCommands.ParseBackupArgvRoundTrip | src/service/model/rustic.ts:78-87 | a rustic backup command line is `backup --json`, the exclude list, then `--exclude-caches --tag=<path> -r=<repo> <path>`, and decodes to exactly those settings |
| RusticCommands.RestoreArgvCarries | src/service/model/rustic.ts:159-165 | restore is `restore --filter-tags=<path> -r=<repo> latest <target>` |
| Backends.FullBinPathShape | src/service/model/base-backend.ts:39-45 | the binary is `bin/<file>` under the working directory in development and under the resources path otherwise |
| Backends.FullBinPathExe | src/service/model/base-backend.ts:40-41 | the binary path ends in ".exe" exactly on win32 |
| Backends.ProfileEnvPassword | src/service/model/restic.ts:87-91 | the password reaches a command only as the engine's password variable, which overrides the host and repository entries; other repository entries override the host's |
| Backends.ExecCall | src/service/model/base-backend.ts:47-56 | `exec` runs the binary with the arguments, and the caller's entries override the ambient environment |
| Backends.GetSnapshots | src/service/model/restic.ts:17-29 | the snapshots command's failure is passed on; empty output is an empty list; other output is parsed |
| Backends.InitRepo | src/service/model/restic.ts:31-42 | succeeds exactly when the init command does, with its stdout, and otherwise fails with its error |
| Backends.AssertRepoExists | src/service/model/base-backend.ts:70-78 | the snapshots when they can be listed; on any failure, exactly one `init` and then an empty list, or init's error |
| Backends.Unlock | src/service/model/restic.ts:105-112 | unlock adds only the password to the ambient environment, and succeeds exactly when the command does |
| Backends.Forget | src/service/model/restic.ts:114-150 | a bad scope fails before anything runs; otherwise one command with the forget arguments and the profile environment, its output reduced to the forget result |
| Backends.ForgetArgsDecode | src/service/model/rustic.ts:116-138 | the arguments of either engine's forget are its head followed by a tail that decodes to the requested mode, policy and scope |
| Backends.WaitForPath | src/service/model/base-backend.ts:101-114 | at most budget+1 stat attempts with one sleep between two; a directory gives true, something else fails at once, another error is passed on, and "no entry" past the budget times out |
| Backends.PollExamples | src/service/model/base-backend.ts:106-111 | with the budget of five, a path that never appears times out after six attempts; one appearing at the fourth is found there |
| Backends.MountedPathExample | src/service/model/restic.ts:187 | "/home/u" under "/tmp/m" is awaited at "/tmp/m/tags/home/u/latest/home/u" |
| Backends.MountedPathShape | src/service/model/restic.ts:163-187 | the awaited path is this call's base directory, "tags", the path without its leading character, "latest", and that path again, joined by the separator |
| Backends.Backend.constructor | src/service/model/base-backend.ts:14-15 | no running batch and no mount |
| Backends.Backend.HasRunningProcess | src/service/model/base-backend.ts:29-31 | true exactly when a batch is recorded as running |
| Backends.Backend.BackupBatchProcesses | src/service/model/restic.ts:66-93 | one unstarted process per path, in order, each with the engine binary, that path's backup arguments, the profile environment and that path's entry |
| Backends.Backend.BackupCheck | src/service/model/restic.ts:63-65 | before its `await`, `backup` refuses while a batch is recorded as running and refuses an empty path list, and changes nothing |
| Backends.Backend.BackupResume | src/service/model/restic.ts:66-103 | after the `await`, the batch of one process per path is started and recorded as running, replacing whatever was recorded meanwhile |
| Backends.Backend.Backup | src/service/model/restic.ts:62-103 | when no other call runs during its `await`: a running batch or an empty path list is refused with nothing built; otherwise the batch of those processes is started and recorded as running |
| Backends.Backend.OnBackupSettled | src/service/model/restic.ts:97-101 | once the batch settles, resolved or rejected, no batch is running |
| Backends.Backend.ReleaseMount | src/service/model/restic.ts:153-162 | a disconnected mount is forgotten and left as it is; a connected one for another path is forgotten after only its `killed` flag is set; one for the same path stays current, untouched |
| Backends.Backend.StartMount | src/service/model/restic.ts:164-185 | a fresh mount process with the engine binary, the mount arguments for the path and base directory, and the profile environment, started and made current |
| Backends.Backend.Mount | src/service/model/restic.ts:152-192 | a disconnected mount is cleared and left untouched, a connected one for another path is stopped (only `killed` changes), one for the same path is reused; otherwise a new mount process starts; the result is the wait under this call's base directory; rustic fails and changes nothing |
| Backends.Backend.OnMountSettled | src/service/model/restic.ts:180-184 | when a mount process settles, the current mount is cleared, whichever it is |
| Backends.Backend.Unmount | src/service/model/base-backend.ts:94-97 | "not mounted" without a live mount, which is left untouched; otherwise the mount is killed (only `killed` changes) and stays current |
| Backends.Backend.Restore | src/service/model/restic.ts:194-212 | one started process with the engine's restore arguments, the profile environment and the path's entry |
| Backends.SingleFlight | src/service/model/restic.ts:63-101 | for calls each made after the previous one has returned, a second backup is refused while the first batch runs and accepted again once it settles |
| Backends.SettleFirst | src/service/model/restic.ts:97-101 | a batch whose first process exits settles, by rejection or by `stop`, and its `.then` leaves no batch recorded as running |
| Backends.OverlappingBackups | src/service/model/restic.ts:63-101 | two calls whose `await`s overlap both pass the guard and start two distinct batches; when the first settles, no batch is recorded as running although the second still runs |
| Secrets.FirstValue | src/service/secrets.ts:21 | `searchParams.get`: the value of the first part with the name, and none exactly when no part has it |
| Secrets.SecretParamOfTarget | src/service/secrets.ts:53-56 | the request a registration's URL makes carries its key as the `secret` parameter |
| Secrets.Respond | src/service/secrets.ts:19-37 | no key or an empty key gets 400, an unknown key 404, and a known key 200 with its secret as the body |
| Secrets.SecretService.constructor | src/service/secrets.ts:4-17 | no server, port 0, empty registry |
| Secrets.SecretService.Start | src/service/secrets.ts:6-15 | a no-op once a server exists; otherwise creates one listening on the port |
| Secrets.SecretService.Stop | src/service/secrets.ts:39-48 | nothing without a server; otherwise clears the registry and closes the server, which fails if it was already closed |
| Secrets.SecretService.RegisterSecret | src/service/secrets.ts:53-59 | the key maps to the secret; the URL is `http://127.0.0.1:<port>/?secret=<key>` and the command is `curl "<url>"` |
| Secrets.SecretService.Unregister | src/service/secrets.ts:60-62 | removes only its own key |
| Secrets.SecretService.ClearAll | src/service/secrets.ts:66-68 | the registry is empty |
| Secrets.SecretService.HandleRequest | src/service/secrets.ts:19-37 | a request is answered from the registry, which it does not change |
| Secrets.ServedUntilUnregistered | src/service/secrets.ts:27-62 | a registered secret is served repeatedly until unregistered, then gets 404, while other registrations are still served |
| Secrets.StopIsFinal | src/service/secrets.ts:6-48 | after `stop`, `start` does nothing and a second `stop` fails |

## Left out

- Spawning, the child's stdout and stderr streams, `getStdOut`/`getStdErr`, the 300 ms and 500 ms timers and the HTTP socket are events or parameters, not code.
- `checkForProcessRunning`, `openFolder` and the `fs.mkdir` calls in `mount` and `restore` are opaque effects of the host: they are left out, and so are their failures.
- `stats`, its `du` walk, the progress estimator and `JSON.parse` are out of scope. `JSON.parse` is a function parameter.
- `Path.join` is modelled as joining the non-empty segments with the separator. Its normalisation (`..`, repeated or trailing separators) is not modelled.
- The `secret` query parameter is read without percent-decoding and without `+` as space. Request targets in absolute form are not modelled.
- `start` of the secret server counts as listening at once. A failing `listen` (a port in use) and the SIGTERM/SIGINT handlers are not modelled.
- The random key is a parameter of the shape `randomBytes(8).toString('base64url')` gives. Two registrations drawing the same key are not modelled.
- `getRunningProcess` only reads the `runningProcess` field, which the contracts state directly.
- The newer `UserProfile` members the backends call (`getRepoEnv`, `getSecret`, `excludeSettings`) and `Process.info`, `stop`, `isKilled` and `isConnected` are fields of the model with no invented bodies.
- `process.resourcesPath` is taken as a string. Outside Electron it is undefined.
- Batches.BatchProcess.Start: requires the chain to be idle or the batch to be running. A restart after `stop` while the stopped process is still awaited would start a second chain, and that case is not modelled.
- Backends.Backend.Mount: the result is the current mount as this call leaves it. Changes made during its awaits by other calls or by the settling of a mount process are not modelled.
- Backends.Backend.OnBackupSettled: the `.then` after a batch settles is a step the environment takes. The model does not tie it to the batch that `backup` returned.
- UserStorage.ProfileStorage.CreateProfile: every accepted name is one entry of the storage directory. Because the name pattern is unanchored, it also accepts names with a path separator or `..`, such as "My Backup/xyz" or "../../abc". For those names the source's `mkdir` makes nested directories or a directory outside the store, `listProfiles` then shows the first component or nothing, and a second `createProfile` with the same name overwrites profile.json instead of failing. The model does not capture this. File-system failures other than `mkdir` over an existing non-directory entry are not modelled either, nor is the directory mode.
- UserStorage.ProfileStorage.DeleteProfile: for a name with a path separator or `..`, the source refuses it as missing, because `listProfiles` does not show it. The model removes it like any other entry.
- CommandParts.BuildExclude: the size limit is an integer. In the source it is a JavaScript number, and a fractional size is written into the flag as decimal text such as "1.5"; the model cannot produce such a flag.
- CommandParts.BuildKeep: the keep counts are integers. Fractional counts, which the source would write as decimal text, are not modelled.
- Paths.ResizePath: lengths, first characters and cuts count Unicode scalar values in the model, where the source's `length`, `[0]` and `substring` count UTF-16 code units. For characters outside the Basic Multilingual Plane the two differ: the source can cut a surrogate pair in half or judge a path too long that the model finds fitting. Also, `maxLength` is an integer. A fractional JavaScript bound acts on the length comparisons and on `substring` like its floor. NaN and Infinity bounds are not modelled.
- Backends.Backend.Backup: it runs the guard and the continuation with nothing in between. Two calls whose `await`s overlap are shown by `Backends.OverlappingBackups` instead.
