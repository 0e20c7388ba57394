# Forked worker-factory supervision, modelled in Dafny

This project models the two classes of Taverna Server that manage the worker-factory subprocess:

- **ForkRunFactory** (master side, module `LocalWorker`). It spawns a worker JVM. It polls the RMI registry until the worker's factory is bound under a fresh name (prefix + random UUID), or until a deadline passes. It tears the worker down in two phases: a remote `shutdown()`, then `destroy()`. It decodes the exit code. It creates runs with up to three attempts, killing and respawning the factory after each lost connection.
- **TavernaRunManager** (worker side, module `WorkerImpl`). It builds runs and translates their failures into `RemoteException`s. It binds itself in the registry from `main`. A static once-only guard unbinds its name when `shutdown()` or the JVM shutdown hook runs.

Shared exception kinds live in module `Failures`. The lemmas about the master side live in module `LocalWorkerProofs`.

## How the model is built

- The five fields of ForkRunFactory are fields of the class `LocalWorker.ForkRunFactory`. The base class's run counter is added as `runCount`. `Snapshot()` packs the fields into a `Supervisor` value.
- Each method is proved to leave exactly the state, and give exactly the outcome, of a function on `Supervisor` values: `InitStep`, `KillStep`, `ReinitStep`, `GetFactoryStep`, `RunOnceStep`, `RetryStep`. The `while` loop of `initFactory` is proved against the recursive `Poll`. The `for` loop of `getRealRun` is proved against the recursive `RetryLoop`. The lemmas then state the source's promises about these functions.
- A Java exception is a value of `Failures.Exception`. A thrown exception is the `Thrown`/`Threw` case of `Outcome`/`Result`.
- The operating system, the registry and the remote factory are oracles:
  - A `Spawn` gives the UUID, what `ProcessBuilder.start` answers, and one `PollOutcome` per loop iteration that starts before the deadline. The deadline is therefore the length of that sequence.
  - A `Teardown` gives what the remote shutdown and the two `exitValue()` calls answer.
  - An `Attempt` gives the oracles for one iteration of the retry loop. `GetRealRun` takes exactly three.
- On the worker side, `WorkerProcess` holds the static fields `shuttingDown`, `factoryName` and `registry`. It also holds flags for the installed shutdown hook, the scheduled exit and the exit status, and a ghost count of `unbind` calls. Its invariant `Valid()` says that count is at most one. Every method keeps that invariant, so it holds across any sequence of calls. `Registry` stands in for `java.rmi.registry.Registry`; it is not part of the source.
- Known behaviours of the code are stated as lemmas:
  - A failed `initInteractionDetails` leaves `factory` set even though `initFactory` then throws at the deadline (`InitTimeoutMayKeepFactory`).
  - A spawn after a timed-out spawn replaces `factoryProcess` without killing the earlier process (`SpawnReplacesTimedOutProcess`).

Behaviour of the code worth knowing:
- Only `ConnectException` and `ConnectIOException` from `make` trigger a kill and retry. `NotBoundException` does not.
- Any exit code above 128 is decoded as a signal. There is no upper bound of 255.
- `lastStartupCheckCount` counts only iterations whose sleep completed. Interrupted iterations are not counted.
- The `NoCreateException` message names the factory but not the attempt count. Its text `"...factory " + name + "despite attempting restart"` is kept as written, with no space before "despite".
- The two sides' `make` signatures differ in this version of the code. The master calls `make(wf, user, receiver, id)`; the worker implements `make(scufl, creator)`. Each side is modelled as written.

## Model

| member | source | states |
|---|---|---|
| `LocalWorker.ForkRunFactory.constructor` | server-webapp/src/main/java/org/taverna/server/master/localworker/ForkRunFactory.java:50-63 | a new factory holds no factory handle, process or name, and has count 0 and no exit code |
| `LocalWorker.ForkRunFactory.InitFactory` | server-webapp/src/main/java/org/taverna/server/master/localworker/ForkRunFactory.java:130-194 | the poll loop leaves exactly the fields and the outcome of `InitStep`, proved through a loop invariant over the remaining iterations |
| `LocalWorker.InitStep` | server-webapp/src/main/java/org/taverna/server/master/localworker/ForkRunFactory.java:130-193 | when `initFactory` returns normally, a factory handle is held |
| `LocalWorker.Poll` | server-webapp/src/main/java/org/taverna/server/master/localworker/ForkRunFactory.java:162-190 | each iteration raises the counter by at most one; the loop stops with found only when a factory is held |
| `LocalWorkerProofs.PollFound` | server-webapp/src/main/java/org/taverna/server/master/localworker/ForkRunFactory.java:164-170 | the loop stops at the first iteration that finds the factory; the counter has grown by the lookups up to it; lastException is the last cause recorded before it |
| `LocalWorkerProofs.PollTimeout` | server-webapp/src/main/java/org/taverna/server/master/localworker/ForkRunFactory.java:164-190 | with no find before the deadline: every lookup is counted, lastException is the last recorded cause, and the factory field holds the handle of the last failed `initInteractionDetails` |
| `LocalWorker.Recorded` | server-webapp/src/main/java/org/taverna/server/master/localworker/ForkRunFactory.java:178-189 | what the loop stores in lastException is the exception caught, or the Exception that is the cause of a caught RemoteException |
| `LocalWorkerProofs.InitNoOpWhenHeld` | server-webapp/src/main/java/org/taverna/server/master/localworker/ForkRunFactory.java:130-132 | while a factory is held, `initFactory` changes no field and returns normally |
| `LocalWorkerProofs.InitNamesSpawn` | server-webapp/src/main/java/org/taverna/server/master/localworker/ForkRunFactory.java:134-149 | a spawn names the process prefix + UUID and does so even when the start fails; a start failure propagates with nothing else changed; a started process is held |
| `LocalWorkerProofs.InitFindsFactory` | server-webapp/src/main/java/org/taverna/server/master/localworker/ForkRunFactory.java:163-170 | on a find, the counter (reset to 0) equals the number of lookups made, and the handle is the one found |
| `LocalWorkerProofs.InitTimesOut` | server-webapp/src/main/java/org/taverna/server/master/localworker/ForkRunFactory.java:173-193 | at the deadline, `initFactory` throws the last recorded cause, or `InterruptedException` when none was recorded; the counter equals the lookups made |
| `LocalWorkerProofs.RecordedUnpacksRemoteCause` | server-webapp/src/main/java/org/taverna/server/master/localworker/ForkRunFactory.java:173-189 | NotBound and runtime faults are recorded as caught; a RemoteException is recorded as its cause when that cause is an Exception, else as itself |
| `LocalWorkerProofs.InitSecondLookupFinds` | server-webapp/src/main/java/org/taverna/server/master/localworker/ForkRunFactory.java:163-170 | a factory bound on the second lookup gives a count of 2 |
| `LocalWorkerProofs.InitNeverBound` | server-webapp/src/main/java/org/taverna/server/master/localworker/ForkRunFactory.java:173-193 | a name never bound ends in a `NotBoundException` for that name after n counted lookups, with no factory |
| `LocalWorkerProofs.InitTimeoutMayKeepFactory` | server-webapp/src/main/java/org/taverna/server/master/localworker/ForkRunFactory.java:168-193 | a failed `initInteractionDetails` leaves the handle set although `initFactory` throws |
| `LocalWorkerProofs.SpawnReplacesTimedOutProcess` | server-webapp/src/main/java/org/taverna/server/master/localworker/ForkRunFactory.java:149 | a new spawn overwrites a process handle left by a timed-out spawn |
| `LocalWorkerProofs.InitKeepsConsistent` | server-webapp/src/main/java/org/taverna/server/master/localworker/ForkRunFactory.java:130-193 | `initFactory` keeps the invariant that a held factory comes with a process and a name |
| `LocalWorker.Classify` | server-webapp/src/main/java/org/taverna/server/master/localworker/ForkRunFactory.java:320-327 | codes above 128 and only they are signals, with a positive signal number; negative codes and only they are "not yet dead"; codes 0..128 are exit codes; every code but a negative one is recovered from its report |
| `LocalWorker.KillStep` | server-webapp/src/main/java/org/taverna/server/master/localworker/ForkRunFactory.java:286-329 | the corrected teardown: neither handle is held afterwards; shutdown is requested exactly when a factory was held; a classification is logged exactly when a process was held; destroy is called only when the first exitValue() found the process running |
| `LocalWorker.KillAsWritten` | server-webapp/src/main/java/org/taverna/server/master/localworker/ForkRunFactory.java:286-300 | the teardown as written: the factory handle is always cleared; it throws exactly when a factory is held and the remote shutdown throws an unchecked exception, which is then a RuntimeException and leaves the process handle as it was; otherwise it ends like the corrected teardown |
| `LocalWorker.ForkRunFactory.KillFactory` | server-webapp/src/main/java/org/taverna/server/master/localworker/ForkRunFactory.java:286-329 | leaves exactly the fields of `KillStep`, and reports whether shutdown was requested, the logged classification and whether destroy was called |
| `LocalWorkerProofs.KillClearsHandles` | server-webapp/src/main/java/org/taverna/server/master/localworker/ForkRunFactory.java:287-319 | after a teardown neither handle is held, whatever shutdown and the process answered; shutdown is requested exactly when a factory was held; name, count and run counter are unchanged |
| `LocalWorkerProofs.KillIdempotent` | server-webapp/src/main/java/org/taverna/server/master/localworker/ForkRunFactory.java:286-303 | a second teardown requests nothing, destroys nothing, logs nothing and changes nothing |
| `LocalWorkerProofs.KillRecordsExitCode` | server-webapp/src/main/java/org/taverna/server/master/localworker/ForkRunFactory.java:303-327 | destroy is called exactly when the first `exitValue()` fails; lastExitCode changes only when a code is obtained; the code classified is that one, or -1 |
| `LocalWorkerProofs.KillWithoutProcess` | server-webapp/src/main/java/org/taverna/server/master/localworker/ForkRunFactory.java:303 | without a process nothing is destroyed or classified and lastExitCode is kept |
| `LocalWorkerProofs.KillGracefulScenario` | server-webapp/src/main/java/org/taverna/server/master/localworker/ForkRunFactory.java:287-307 | a graceful shutdown with exit 0 records code 0 without forced termination |
| `LocalWorkerProofs.KillForcedScenario` | server-webapp/src/main/java/org/taverna/server/master/localworker/ForkRunFactory.java:289-322 | a failed remote shutdown followed by a forced kill reporting 143 is decoded as signal 15 |
| `LocalWorkerProofs.KillKeepsConsistent` | server-webapp/src/main/java/org/taverna/server/master/localworker/ForkRunFactory.java:286-329 | teardown keeps the handle invariant |
| `LocalWorkerProofs.ClassifyRoundTrip` | server-webapp/src/main/java/org/taverna/server/master/localworker/ForkRunFactory.java:320-327 | every code classifies into a well-formed report (signal above 0, or exit code in 0..128); a non-negative code is recovered from its report; a negative code means not yet dead |
| `LocalWorkerProofs.ExitCodeRoundTrip` | server-webapp/src/main/java/org/taverna/server/master/localworker/ForkRunFactory.java:320-327 | every well-formed report is the classification of the code it stands for |
| `LocalWorkerProofs.KillAsWrittenLeavesProcess` | server-webapp/src/main/java/org/taverna/server/master/localworker/ForkRunFactory.java:289-300 | as written, an unchecked exception from the remote shutdown escapes with the process handle still set |
| `LocalWorkerProofs.KillAsWrittenAgreesOtherwise` | server-webapp/src/main/java/org/taverna/server/master/localworker/ForkRunFactory.java:286-329 | in every other case the code as written and the corrected teardown agree |
| `LocalWorker.ForkRunFactory.ReinitFactory` | server-webapp/src/main/java/org/taverna/server/master/localworker/ForkRunFactory.java:72-81 | leaves exactly the state of `ReinitStep`; failures of re-initialisation are swallowed |
| `LocalWorker.ReinitStep` | server-webapp/src/main/java/org/taverna/server/master/localworker/ForkRunFactory.java:72-81 | without a factory on entry only the teardown happens; a factory is held afterwards only if one was held on entry; the run counter is kept and lastExitCode is the teardown's |
| `LocalWorkerProofs.ReinitWithoutFactoryOnlyKills` | server-webapp/src/main/java/org/taverna/server/master/localworker/ForkRunFactory.java:72-81 | with no factory held on entry, reinitFactory only tears down |
| `LocalWorkerProofs.ReinitWithFactoryRespawns` | server-webapp/src/main/java/org/taverna/server/master/localworker/ForkRunFactory.java:72-81 | with a factory held on entry, it tears down and then always spawns afresh under prefix + the new UUID |
| `LocalWorkerProofs.ReinitKeepsConsistent` | server-webapp/src/main/java/org/taverna/server/master/localworker/ForkRunFactory.java:72-81 | reinitFactory keeps the handle invariant |
| `LocalWorker.ForkRunFactory.GetFactory` | server-webapp/src/main/java/org/taverna/server/master/localworker/ForkRunFactory.java:83-92 | leaves the state and result of `GetFactoryStep` |
| `LocalWorker.GetFactoryStep` | server-webapp/src/main/java/org/taverna/server/master/localworker/ForkRunFactory.java:83-92 | the state is that of initFactory; a returned handle is the one now held; whatever leaves is a RemoteException |
| `LocalWorkerProofs.GetFactoryWrapsFailures` | server-webapp/src/main/java/org/taverna/server/master/localworker/ForkRunFactory.java:83-92 | getFactory returns the held handle exactly when initFactory succeeds; only RemoteExceptions leave it; remote ones pass unchanged and others are wrapped as "problem constructing factory" with the original as the cause |
| `LocalWorker.ForkRunFactory.GetRealRunOnce` | server-webapp/src/main/java/org/taverna/server/master/localworker/ForkRunFactory.java:349-358 | leaves the state, result and make call of `RunOnceStep` |
| `LocalWorker.RunOnceStep` | server-webapp/src/main/java/org/taverna/server/master/localworker/ForkRunFactory.java:349-358 | at most one make call, carrying the request for this creation; no kill; a run is returned only as make returned it; the run counter grows by one exactly when a run is returned |
| `LocalWorker.RequestFor` | server-webapp/src/main/java/org/taverna/server/master/localworker/ForkRunFactory.java:351-355 | the make call carries the serialized workflow and the run id, with the creator's name as user, or "Unknown Person" for a null creator |
| `LocalWorkerProofs.RunOnceCounts` | server-webapp/src/main/java/org/taverna/server/master/localworker/ForkRunFactory.java:349-358 | with a factory held: exactly one make call with the creation's request; the run counter grows by one exactly when make returns a run; a failure of make is passed on with nothing changed |
| `LocalWorkerProofs.NullCreatorIsUnknownPerson` | server-webapp/src/main/java/org/taverna/server/master/localworker/ForkRunFactory.java:351-353 | a null creator is sent as "Unknown Person" |
| `LocalWorker.ForkRunFactory.GetRealRun` | server-webapp/src/main/java/org/taverna/server/master/localworker/ForkRunFactory.java:360-375 | the for loop leaves the state, result, make calls and kill count of `RetryStep`, proved through a loop invariant over the remaining attempts |
| `LocalWorker.RetryLoop` | server-webapp/src/main/java/org/taverna/server/master/localworker/ForkRunFactory.java:364-374 | the loop makes at most one make call per remaining attempt, and each killFactory follows a make call of its own |
| `LocalWorker.RetryStep` | server-webapp/src/main/java/org/taverna/server/master/localworker/ForkRunFactory.java:360-375 | getRealRun makes at most three make calls and kills no more often than it calls make |
| `LocalWorker.NoCreateMessage` | server-webapp/src/main/java/org/taverna/server/master/localworker/ForkRunFactory.java:373-374 | the message is the fixed lead text, then the factory name ("null" when there is none), then the fixed tail text |
| `Failures.IsConnectionFailure` | server-webapp/src/main/java/org/taverna/server/master/localworker/ForkRunFactory.java:368 | the failures that trigger a retry are RemoteExceptions, and a plain RemoteException is not one of them |
| `LocalWorkerProofs.RetryBounded` | server-webapp/src/main/java/org/taverna/server/master/localworker/ForkRunFactory.java:364-372 | at most one make call per attempt, so at most three; every call carries the same workflow, user and run id |
| `LocalWorkerProofs.RetryCountsOnce` | server-webapp/src/main/java/org/taverna/server/master/localworker/ForkRunFactory.java:354-372 | the run counter grows by exactly one when a run is returned, and not at all otherwise |
| `LocalWorkerProofs.RetryExhausts` | server-webapp/src/main/java/org/taverna/server/master/localworker/ForkRunFactory.java:364-374 | when every make loses the connection: one call per attempt, killFactory runs once per attempt, and `NoCreateException` names the last spawned factory |
| `LocalWorkerProofs.ThreeConnectionLossesExhaust` | server-webapp/src/main/java/org/taverna/server/master/localworker/ForkRunFactory.java:364-374 | three lost connections give exactly three make calls and three kills, then `NoCreateException`, with no handle held and no run counted |
| `LocalWorkerProofs.RetryStopsOnInitFailure` | server-webapp/src/main/java/org/taverna/server/master/localworker/ForkRunFactory.java:365 | a failure of initFactory propagates at once, with no make call and no kill, and the state left by initFactory |
| `LocalWorkerProofs.RetryStopsOnOtherFailure` | server-webapp/src/main/java/org/taverna/server/master/localworker/ForkRunFactory.java:366-370 | any other make failure propagates after one call, with no kill, and the factory stays held |
| `LocalWorkerProofs.RetryFirstAttemptSucceeds` | server-webapp/src/main/java/org/taverna/server/master/localworker/ForkRunFactory.java:364-367 | against a held factory, a successful make returns its run after one call and no kill, and only the run counter changes, by one |
| `LocalWorkerProofs.RetryKeepsConsistent` | server-webapp/src/main/java/org/taverna/server/master/localworker/ForkRunFactory.java:360-375 | run creation keeps the handle invariant |
| `WorkerImpl.TavernaRunManager.constructor` | server-worker/src/main/java/org/taverna/server/localworker/impl/TavernaRunManager.java:79-89 | command, run constructor and worker class are stored as given |
| `WorkerImpl.TavernaRunManager.Make` | server-worker/src/main/java/org/taverna/server/localworker/impl/TavernaRunManager.java:91-119 | the builder is called, with the stored command, the extracted workflow and the worker class, exactly when extraction succeeds; a run is returned exactly when both succeed; only RemoteExceptions leave make; the original failure is the thrown exception or its cause |
| `WorkerImpl.MakeTranslatesErrors` | server-worker/src/main/java/org/taverna/server/localworker/impl/TavernaRunManager.java:96-118 | extraction failure gives "failed to extract contained workflow" with no builder call; a remote target is rethrown unchanged; any other target is wrapped as "unexpected exception"; other construction errors are wrapped as "bad instance construction" |
| `WorkerImpl.ParseArguments` | server-worker/src/main/java/org/taverna/server/localworker/impl/TavernaRunManager.java:168-174 | accepts exactly the two-argument command lines, reads each back as written, and rejects the rest with the usage message |
| `WorkerImpl.ParseArgumentsRoundTrip` | server-worker/src/main/java/org/taverna/server/localworker/impl/TavernaRunManager.java:168-174 | exactly the two-argument command lines are accepted and read back as written; any other count gets the usage message |
| `WorkerImpl.WorkerProcess.constructor` | server-worker/src/main/java/org/taverna/server/localworker/impl/TavernaRunManager.java:121-123 | a fresh JVM is not shutting down, knows no name or registry, and has unbound nothing |
| `WorkerImpl.WorkerProcess.UnregisterFactory` | server-worker/src/main/java/org/taverna/server/localworker/impl/TavernaRunManager.java:125-135 | sets shuttingDown; calls unbind only on the first call and only when name and registry are known; a failed unbind is swallowed; at most one unbind ever |
| `WorkerImpl.WorkerProcess.Shutdown` | server-worker/src/main/java/org/taverna/server/localworker/impl/TavernaRunManager.java:137-151 | runs the guard first, then schedules the exit |
| `WorkerImpl.WorkerProcess.RunDelayedExit` | server-worker/src/main/java/org/taverna/server/localworker/impl/TavernaRunManager.java:140-150 | exits with status 0 whether or not the delay was interrupted; the exit runs the hook through the same guard |
| `WorkerImpl.WorkerProcess.RunShutdownHook` | server-worker/src/main/java/org/taverna/server/localworker/impl/TavernaRunManager.java:179-184 | an installed hook goes through the same guard, so it unbinds only if nothing did before |
| `WorkerImpl.WorkerProcess.Launch` | server-worker/src/main/java/org/taverna/server/localworker/impl/TavernaRunManager.java:167-186 | rejects any argument count but 2 and changes nothing; otherwise remembers args[1] and the registry, binds a new manager for args[0] under args[1], and installs the hook only once bound |
| `WorkerImpl.ShutdownSequence` | server-worker/src/main/java/org/taverna/server/localworker/impl/TavernaRunManager.java:137-184 | launch, shutdown and the exit that runs the hook unbind exactly once, and the name is gone |

## Findings

| source | as written | input that shows it | evidently intended | confidence | as-written member | corrected member |
|---|---|---|---|---|---|---|
| server-webapp/src/main/java/org/taverna/server/master/localworker/ForkRunFactory.java:289-300 | phase one catches only `RemoteException` and `InterruptedException`; its `finally` clears `factory`, and any other exception leaves `killFactory` before `factoryProcess` is examined | a factory and a process are held, and `factory.shutdown()` throws a `RuntimeException` | both handles are cleared whatever the remote shutdown does; teardown failures are logged, not propagated | low; not executed | `LocalWorkerProofs.KillAsWrittenLeavesProcess` | `LocalWorkerProofs.KillClearsHandles` |

`LocalWorker.KillAsWritten` models the code as written. The class method `KillFactory` and every function that uses it (`KillStep`) treat an unchecked exception from the remote shutdown like the two failures the code catches.

## Left out

- Output draining (`OutputLogger`, `ErrorLogger`): this is background I/O in its own threads.
- Assembling the subprocess command line and `ProcessBuilder` settings: these are library calls. Only the start's outcome is kept (`StartOutcome`).
- Real sleeps, the `Calendar` deadline and the configured wait: these are clocks. The deadline is the length of a `Spawn`'s poll sequence.
- The registry lookup and its `list()` probe: these are remote calls, given by `PollOutcome`. A probe failure of the connection kind is only logged, so it cannot be seen. Any other probe failure is a `LookupFailed` outcome.
- Base-class collaborators, which are not part of this model:
  - `getTheRegistry`.
  - `state`: the name prefix is the constant `prefix`.
  - `serializeWorkflow`: its result is the `wf` parameter.
  - `makeURReciver`: its receiver is omitted from `MakeRequest`.
  - `initInteractionDetails`: its failure is the `InitFailed` outcome.
  - `incrementRunCount`: the `runCount` field.
- Other parts of ForkRunFactory:
  - `finalize`: collection-driven cleanup.
  - JMX getters and annotations: the fields are public.
  - `initRegistry`: it only waits for the registry.
  - `getFactoryProcessMapping`: it returns an empty array.
  - `operatingCount`: it only delegates `countOperatingRuns` to `getFactory`.
- Timing and concurrency:
  - The 700 ms and 350 ms waits and the 1000 ms exit delay are not timed. Only whether a wait was interrupted is kept.
  - `synchronized` on `unregisterFactory` and any interleaving of callers: the model is sequential.
- Java `int` wrap-around on `lastStartupCheckCount` and on the run counter: not modelled. Both are bounded by the number of loop iterations or calls.
- Worker-side details:
  - XML parsing, `unwrapWorkflow` and the transform: library calls. Only success/failure is kept (`Extraction`).
  - Reflective construction: only its outcome is kept (`Construction`).
  - The parser-factory fields (`dbf`, `tf`).
  - Printing the creator and the confirmation line.
  - The security policy and security manager.
  - A failure to export the remote object. `getRegistry` is taken never to fail; the registry is passed in.
- `java.lang.Error`: not modelled, except as the cause of a `RemoteException` or the target of a constructor failure.
- `ListenerPropertyREST` and `NoDirectoryEntryHandler`: REST glue outside the supervised core.
- `IllegalStateTransitionException`: an exception class only. The run-status transition matrix is not in the shown files.
- `RetryLoop`, `RetryStep`: an unchecked exception from the remote shutdown inside the kill at line 371 escapes `getRealRun` in the code; the model uses the corrected teardown, so the loop goes on to the next attempt instead.
- `ReinitStep`: likewise, an unchecked exception from the remote shutdown inside the kill at line 74 escapes `reinitFactory` in the code; the model goes on to re-initialise.
- `GetRealRun`: takes exactly three `Attempt` oracles, one per possible iteration. An iteration that ends early leaves the rest of its oracle unused.
