/**
 * What the supervisor promises: the poll loop's count and failure cause,
 * teardown always clearing both handles, the exit-code classification, and
 * the bounded kill-and-retry of run creation.
 */
module LocalWorkerProofs {
  import opened Failures
  import opened LocalWorker

  // ------------------------------------------ reference definitions for the poll loop

  /** How many iterations completed their sleep, i.e. went on to look the factory up. */
  function Lookups(polls: seq<PollOutcome>): (n: nat)
    ensures n <= |polls|
  {
    if polls == [] then 0 else (if polls[0].SleepInterrupted? then 0 else 1) + Lookups(polls[1..])
  }

  /** The index of the first iteration that found the factory, or |polls| if none did. */
  function FirstFound(polls: seq<PollOutcome>): (k: nat)
    ensures k <= |polls|
    ensures k < |polls| ==> polls[k].Found?
    ensures forall j :: 0 <= j < k ==> !polls[j].Found?
  {
    if polls == [] then 0 else if polls[0].Found? then 0 else 1 + FirstFound(polls[1..])
  }

  /** What one iteration records in lastException, if anything. */
  function FaultOf(name: string, o: PollOutcome): Option<Exception> {
    match o
    case LookupFailed(fault) => Some(Recorded(name, fault))
    case InitFailed(_, fault) => Some(Recorded(name, fault))
    case _ => None
  }

  /** What one iteration leaves in the factory field without returning, if anything. */
  function HandleOf(o: PollOutcome): Option<FactoryRef> {
    if o.InitFailed? then Some(o.factory) else None
  }

  /** The exception recorded by the last iteration that recorded one, read from the end. */
  function LastFault(name: string, polls: seq<PollOutcome>): Option<Exception>
    decreases |polls|
  {
    if polls == [] then None
    else Latest(LastFault(name, polls[..|polls| - 1]), FaultOf(name, polls[|polls| - 1]))
  }

  /** The factory found by the last iteration whose initInteractionDetails failed, read from the end. */
  function LastInitHandle(polls: seq<PollOutcome>): Option<FactoryRef>
    decreases |polls|
  {
    if polls == [] then None
    else Latest(LastInitHandle(polls[..|polls| - 1]), HandleOf(polls[|polls| - 1]))
  }

  lemma {:induction false} LastFaultCons(name: string, o: PollOutcome, polls: seq<PollOutcome>)
    ensures LastFault(name, [o] + polls) == Latest(FaultOf(name, o), LastFault(name, polls))
    decreases |polls|
  {
    var n := |polls|;
    if n == 0 {
      assert ([o] + polls)[..0] == [];
    } else {
      assert ([o] + polls)[..n] == [o] + polls[..n - 1];
      LastFaultCons(name, o, polls[..n - 1]);
    }
  }

  lemma {:induction false} LastInitHandleCons(o: PollOutcome, polls: seq<PollOutcome>)
    ensures LastInitHandle([o] + polls) == Latest(HandleOf(o), LastInitHandle(polls))
    decreases |polls|
  {
    var n := |polls|;
    if n == 0 {
      assert ([o] + polls)[..0] == [];
    } else {
      assert ([o] + polls)[..n] == [o] + polls[..n - 1];
      LastInitHandleCons(o, polls[..n - 1]);
    }
  }

  // ------------------------------------------------------------ the poll loop

  /**
   * When an iteration finds the factory, the loop stops there: the counter has
   * grown by the lookups up to and including that one, and the factory is the
   * one found.
   */
  lemma {:induction false} PollFound(name: string, polls: seq<PollOutcome>, count: int,
                                     factory: Option<FactoryRef>, last: Option<Exception>)
    requires FirstFound(polls) < |polls|
    ensures var k := FirstFound(polls);
            Poll(name, polls, count, factory, last)
              == PollEnd(count + Lookups(polls[..k + 1]), Some(polls[k].factory),
                         Latest(last, LastFault(name, polls[..k])), true)
    decreases |polls|
  {
    var k := FirstFound(polls);
    var o, rest := polls[0], polls[1..];
    if o.Found? {
      assert polls[..1] == [o] && polls[..0] == [];
      assert Lookups(polls[..1]) == 1 + Lookups(polls[..1][1..]);
    } else {
      var c := if o.SleepInterrupted? then count else count + 1;
      var f := Latest(factory, HandleOf(o));
      var l := Latest(last, FaultOf(name, o));
      assert FirstFound(rest) == k - 1;
      PollFound(name, rest, c, f, l);
      assert polls[..k + 1][1..] == rest[..k];
      assert polls[..k] == [o] + rest[..k - 1];
      LastFaultCons(name, o, rest[..k - 1]);
    }
  }

  /**
   * When no iteration before the deadline finds the factory, the loop runs
   * them all: the counter has grown by every lookup, lastException is the
   * last recorded cause, and the factory field holds whatever a failed
   * initInteractionDetails left there.
   */
  lemma {:induction false} PollTimeout(name: string, polls: seq<PollOutcome>, count: int,
                                       factory: Option<FactoryRef>, last: Option<Exception>)
    requires forall j :: 0 <= j < |polls| ==> !polls[j].Found?
    ensures Poll(name, polls, count, factory, last)
              == PollEnd(count + Lookups(polls), Latest(factory, LastInitHandle(polls)),
                         Latest(last, LastFault(name, polls)), false)
    decreases |polls|
  {
    if polls != [] {
      var o, rest := polls[0], polls[1..];
      var c := if o.SleepInterrupted? then count else count + 1;
      PollTimeout(name, rest, c, Latest(factory, HandleOf(o)), Latest(last, FaultOf(name, o)));
      assert polls == [o] + rest;
      LastFaultCons(name, o, rest);
      LastInitHandleCons(o, rest);
    }
  }

  // ------------------------------------------------------------ initFactory

  /** initFactory changes nothing, and spawns nothing, while a factory is held. */
  lemma InitNoOpWhenHeld(s: Supervisor, prefix: string, spawn: Spawn)
    requires s.factory.Some?
    ensures InitStep(s, prefix, spawn) == Step(s, Normal)
  {
  }

  /**
   * A spawn names the process prefix + UUID, before anything can fail, and
   * leaves the exit code and run counter alone.
   */
  lemma InitNamesSpawn(s: Supervisor, prefix: string, spawn: Spawn)
    requires s.factory.None?
    ensures var r := InitStep(s, prefix, spawn);
            && r.after.processName == Some(prefix + spawn.uuid)
            && r.after.lastExitCode == s.lastExitCode && r.after.runCount == s.runCount
            && (spawn.start.StartFailed? ==> r == Step(s.(processName := Some(prefix + spawn.uuid)), Thrown(spawn.start.error)))
            && (spawn.start.Started? ==> r.after.process == Some(spawn.start.process))
  {
  }

  /**
   * A successful startup: the counter, reset to 0 before polling, equals the
   * number of lookups made up to and including the one that found the factory.
   */
  lemma InitFindsFactory(s: Supervisor, prefix: string, spawn: Spawn)
    requires s.factory.None? && spawn.start.Started?
    requires FirstFound(spawn.polls) < |spawn.polls|
    ensures var k := FirstFound(spawn.polls);
            var r := InitStep(s, prefix, spawn);
            && r.outcome == Normal
            && r.after.factory == Some(spawn.polls[k].factory)
            && r.after.checkCount == Lookups(spawn.polls[..k + 1])
  {
    PollFound(prefix + spawn.uuid, spawn.polls, 0, None, None);
  }

  /**
   * A startup that reaches the deadline throws the last recorded cause, or an
   * InterruptedException when nothing was recorded; the counter equals the
   * number of lookups made.
   */
  lemma InitTimesOut(s: Supervisor, prefix: string, spawn: Spawn)
    requires s.factory.None? && spawn.start.Started?
    requires forall j :: 0 <= j < |spawn.polls| ==> !spawn.polls[j].Found?
    ensures var cause := LastFault(prefix + spawn.uuid, spawn.polls);
            var r := InitStep(s, prefix, spawn);
            && r.outcome == Thrown(if cause.Some? then cause.value else InterruptedException)
            && r.after.checkCount == Lookups(spawn.polls)
            && r.after.factory == LastInitHandle(spawn.polls)
  {
    PollTimeout(prefix + spawn.uuid, spawn.polls, 0, None, None);
  }

  /** NotBound, Runtime and cause-less remote faults are recorded as caught; a remote fault with an Exception cause records the cause. */
  lemma RecordedUnpacksRemoteCause(name: string, fault: PollFault)
    ensures fault.NotBoundFault? ==> Recorded(name, fault) == NotBoundException(name)
    ensures fault.RuntimeFault? ==> Recorded(name, fault) == RuntimeException(fault.message)
    ensures fault.RemoteFault? && fault.cause.Some? && fault.cause.value.Raised?
            ==> Recorded(name, fault) == fault.cause.value.exception
    ensures fault.RemoteFault? && (fault.cause.None? || fault.cause.value.JavaError?)
            ==> Recorded(name, fault) == RemoteException(fault.kind, fault.message, fault.cause)
  {
  }

  /** The scenario of a factory that binds on the second lookup, after one NotBound. */
  lemma InitSecondLookupFinds(s: Supervisor, prefix: string, uuid: string, p: ProcessRef, f: FactoryRef)
    requires s.factory.None?
    ensures var r := InitStep(s, prefix, Spawn(uuid, Started(p), [LookupFailed(NotBoundFault), Found(f)]));
            r.outcome == Normal && r.after.checkCount == 2 && r.after.factory == Some(f)
  {
    var polls := [LookupFailed(NotBoundFault), Found(f)];
    assert polls[1..] == [Found(f)] && polls[1..][1..] == [];
    InitFindsFactory(s, prefix, Spawn(uuid, Started(p), polls));
    assert polls[..2] == polls;
  }

  /** A registry that never binds the name: the NotBoundException for it is thrown at the deadline. */
  lemma InitNeverBound(s: Supervisor, prefix: string, uuid: string, p: ProcessRef, n: nat)
    requires s.factory.None? && n > 0
    ensures var r := InitStep(s, prefix, Spawn(uuid, Started(p), seq(n, _ => LookupFailed(NotBoundFault))));
            r.outcome == Thrown(NotBoundException(prefix + uuid)) && r.after.checkCount == n && r.after.factory.None?
  {
    var polls := seq(n, _ => LookupFailed(NotBoundFault));
    InitTimesOut(s, prefix, Spawn(uuid, Started(p), polls));
    LookupsAllNotBound(n);
    LastFaultAllNotBound(prefix + uuid, n);
  }

  lemma {:induction false} LookupsAllNotBound(n: nat)
    ensures Lookups(seq(n, _ => LookupFailed(NotBoundFault))) == n
    ensures LastInitHandle(seq(n, _ => LookupFailed(NotBoundFault))) == None
  {
    if n > 0 {
      LookupsAllNotBound(n - 1);
      var polls := seq(n, _ => LookupFailed(NotBoundFault));
      assert polls[1..] == seq(n - 1, _ => LookupFailed(NotBoundFault));
      assert polls[..n - 1] == seq(n - 1, _ => LookupFailed(NotBoundFault));
    }
  }

  lemma LastFaultAllNotBound(name: string, n: nat)
    requires n > 0
    ensures LastFault(name, seq(n, _ => LookupFailed(NotBoundFault))) == Some(NotBoundException(name))
  {
  }

  /**
   * A failed initInteractionDetails leaves the factory field set even though
   * initFactory then throws at the deadline; the next initFactory is a no-op.
   */
  lemma InitTimeoutMayKeepFactory(s: Supervisor, prefix: string, uuid: string, p: ProcessRef, f: FactoryRef, m: string)
    requires s.factory.None?
    ensures var r := InitStep(s, prefix, Spawn(uuid, Started(p), [InitFailed(f, RuntimeFault(m))]));
            r.outcome == Thrown(RuntimeException(m)) && r.after.factory == Some(f)
  {
    var polls := [InitFailed(f, RuntimeFault(m))];
    assert polls[1..] == [];
    var name := prefix + uuid;
    assert Recorded(name, RuntimeFault(m)) == RuntimeException(m);
    assert Poll(name, polls, 0, None, None) == PollEnd(1, Some(f), Some(RuntimeException(m)), false);
  }

  /**
   * A spawn after a timed-out one replaces factoryProcess without killing the
   * process it held: the earlier subprocess is no longer referenced.
   */
  lemma SpawnReplacesTimedOutProcess(s: Supervisor, prefix: string, spawn: Spawn)
    requires s.factory.None? && s.process.Some? && spawn.start.Started?
    ensures InitStep(s, prefix, spawn).after.process == Some(spawn.start.process)
  {
  }

  lemma InitKeepsConsistent(s: Supervisor, prefix: string, spawn: Spawn)
    requires Consistent(s)
    ensures Consistent(InitStep(s, prefix, spawn).after)
  {
  }

  // ------------------------------------------------------------ killFactory

  /**
   * After a teardown neither handle is held, whatever the remote shutdown and
   * the process answered; name, startup count and run counter are untouched.
   */
  lemma KillClearsHandles(s: Supervisor, t: Teardown)
    ensures var k := KillStep(s, t);
            && k.after.factory.None? && k.after.process.None?
            && k.after.processName == s.processName && k.after.checkCount == s.checkCount
            && k.after.runCount == s.runCount
            && k.shutdownRequested == s.factory.Some?
  {
  }

  /** A second teardown requests nothing, destroys nothing, logs nothing and changes nothing. */
  lemma KillIdempotent(s: Supervisor, t1: Teardown, t2: Teardown)
    ensures var once := KillStep(s, t1).after;
            KillStep(once, t2) == KillEnd(once, false, None, false)
  {
  }

  /**
   * With a process held, destroy() is called exactly when the first
   * exitValue() fails; lastExitCode changes only when an exit value is
   * obtained, and the logged classification is that of the code obtained, or
   * of -1.
   */
  lemma KillRecordsExitCode(s: Supervisor, t: Teardown)
    requires s.process.Some?
    ensures var k := KillStep(s, t);
            var code := if t.exitValue.Some? then t.exitValue
                        else t.exitAfterDestroy;
            && k.destroyed == t.exitValue.None?
            && k.after.lastExitCode == (if code.Some? then code else s.lastExitCode)
            && k.report == Some(Classify(if code.Some? then code.value else -1))
  {
  }

  /** Without a process there is nothing to classify and nothing to destroy. */
  lemma KillWithoutProcess(s: Supervisor, t: Teardown)
    requires s.process.None?
    ensures var k := KillStep(s, t);
            k.report.None? && !k.destroyed && k.after.lastExitCode == s.lastExitCode
  {
  }

  /** A graceful shutdown of a process that exits 0: code 0 recorded, no forced termination. */
  lemma KillGracefulScenario(s: Supervisor, f: FactoryRef, p: ProcessRef)
    requires s.factory == Some(f) && s.process == Some(p)
    ensures var k := KillStep(s, Teardown(ShutdownDone, Some(0), None));
            k.after.lastExitCode == Some(0) && !k.destroyed && k.report == Some(Exited(0)) && k.shutdownRequested
  {
  }

  /** A failed remote shutdown and a forced termination reporting 143: signal 15. */
  lemma KillForcedScenario(s: Supervisor, f: FactoryRef, p: ProcessRef)
    requires s.factory == Some(f) && s.process == Some(p)
    ensures var k := KillStep(s, Teardown(ShutdownRemoteFailed, None, Some(143)));
            k.after.lastExitCode == Some(143) && k.destroyed && k.report == Some(KilledBySignal(15))
            && k.after.factory.None? && k.after.process.None?
  {
  }

  lemma KillKeepsConsistent(s: Supervisor, t: Teardown)
    requires Consistent(s)
    ensures Consistent(KillStep(s, t).after)
  {
  }

  // ------------------------------------------------ the exit-code classification

  /** The reports a real exit code can produce: a positive signal number, or an exit code in [0, 128]. */
  predicate WellFormedReport(r: ExitReport) {
    match r
    case KilledBySignal(n) => n > 0
    case Exited(c) => 0 <= c <= 128
    case NotYetDead => true
  }

  /** Every code classifies into a well-formed report, and a non-negative code is recovered from it. */
  lemma ClassifyRoundTrip(code: int)
    ensures WellFormedReport(Classify(code))
    ensures code >= 0 ==> ExitCodeOf(Classify(code)) == code
    ensures code < 0 ==> Classify(code) == NotYetDead
  {
  }

  /** Every well-formed report is the classification of the code it stands for. */
  lemma ExitCodeRoundTrip(r: ExitReport)
    requires WellFormedReport(r)
    ensures Classify(ExitCodeOf(r)) == r
  {
  }

  // ------------------------------------------------ the finding in killFactory

  /**
   * As written: an unchecked exception out of the remote shutdown leaves the
   * process handle set, although the factory handle is cleared.
   */
  lemma KillAsWrittenLeavesProcess(f: FactoryRef, p: ProcessRef)
    ensures var s := Supervisor(Some(f), Some(p), Some("w"), 0, None, 0);
            var r := KillAsWritten(s, Teardown(ShutdownUnchecked("boom"), Some(0), None));
            r.after.factory.None? && r.after.process == Some(p) && r.outcome == Thrown(RuntimeException("boom"))
  {
  }

  /** Otherwise the code as written and the corrected teardown agree. */
  lemma KillAsWrittenAgreesOtherwise(s: Supervisor, t: Teardown)
    requires !(s.factory.Some? && t.shutdown.ShutdownUnchecked?)
    ensures KillAsWritten(s, t) == Step(KillStep(s, t).after, Normal)
  {
  }

  // ------------------------------------------------ reinitFactory and getFactory

  /** Without a factory, reinitFactory only tears down: no spawn. */
  lemma ReinitWithoutFactoryOnlyKills(s: Supervisor, prefix: string, t: Teardown, spawn: Spawn)
    requires s.factory.None?
    ensures ReinitStep(s, prefix, t, spawn) == KillStep(s, t).after
  {
  }

  /** With a factory, reinitFactory tears it down and always spawns a fresh one. */
  lemma ReinitWithFactoryRespawns(s: Supervisor, prefix: string, t: Teardown, spawn: Spawn)
    requires s.factory.Some?
    ensures var r := ReinitStep(s, prefix, t, spawn);
            && r == InitStep(KillStep(s, t).after, prefix, spawn).after
            && r.processName == Some(prefix + spawn.uuid)
            && (spawn.start.Started? ==> r.process == Some(spawn.start.process))
  {
  }

  lemma ReinitKeepsConsistent(s: Supervisor, prefix: string, t: Teardown, spawn: Spawn)
    requires Consistent(s)
    ensures Consistent(ReinitStep(s, prefix, t, spawn))
  {
  }

  /**
   * getFactory only ever throws RemoteExceptions: those of initFactory pass
   * through, any other failure is wrapped with it as the cause.
   */
  lemma GetFactoryWrapsFailures(s: Supervisor, prefix: string, spawn: Spawn)
    ensures var init := InitStep(s, prefix, spawn);
            var g := GetFactoryStep(s, prefix, spawn);
            && g.after == init.after
            && (g.result.Returned? <==> init.outcome.Normal?)
            && (g.result.Returned? ==> Some(g.result.value) == g.after.factory)
            && (g.result.Threw? ==> g.result.error.RemoteException?)
            && (init.outcome.Thrown? && init.outcome.error.RemoteException? ==> g.result == Threw(init.outcome.error))
            && (init.outcome.Thrown? && !init.outcome.error.RemoteException? ==>
                  g.result == Threw(RemoteException(PlainRemote, "problem constructing factory", Some(Raised(init.outcome.error)))))
  {
  }

  // ------------------------------------------------------------ getRealRun

  /** The inner getRealRun counts a run exactly when make returned it. */
  lemma RunOnceCounts(s: Supervisor, prefix: string, creator: Option<string>, wf: string, id: string,
                      spawn: Spawn, make: MakeOutcome)
    requires s.factory.Some?
    ensures var r := RunOnceStep(s, prefix, creator, wf, id, spawn, make);
            && r.sent == [RequestFor(creator, wf, id)]
            && r.after.factory == s.factory
            && (make.Made? ==> r.result == Returned(make.run) && r.after.runCount == s.runCount + 1)
            && (make.MakeFailed? ==> r.result == Threw(make.error) && r.after == s)
  {
  }

  /** A null creator is sent as "Unknown Person". */
  lemma NullCreatorIsUnknownPerson(wf: string, id: string)
    ensures RequestFor(None, wf, id).user == "Unknown Person"
  {
  }

  /**
   * The retry loop makes at most one make call per attempt, appends to what
   * was sent before, and every call carries the same request.
   */
  lemma {:induction false} RetryBounded(s: Supervisor, prefix: string, creator: Option<string>, wf: string,
                                        id: string, attempts: seq<Attempt>, sent: seq<MakeRequest>, kills: nat)
    ensures var r := RetryLoop(s, prefix, creator, wf, id, attempts, sent, kills);
            && |sent| <= |r.sent| <= |sent| + |attempts|
            && r.sent[..|sent|] == sent
            && forall j :: |sent| <= j < |r.sent| ==> r.sent[j] == RequestFor(creator, wf, id)
    decreases |attempts|
  {
    if attempts != [] {
      var a := attempts[0];
      var init := InitStep(s, prefix, a.spawn);
      if init.outcome.Normal? {
        var once := RunOnceStep(init.after, prefix, creator, wf, id, a.spawn, a.make);
        RunOnceCounts(init.after, prefix, creator, wf, id, a.spawn, a.make);
        if once.result.Threw? && IsConnectionFailure(once.result.error) {
          var next := KillStep(once.after, a.teardown).after;
          RetryBounded(next, prefix, creator, wf, id, attempts[1..], sent + once.sent, kills + 1);
          var r := RetryLoop(next, prefix, creator, wf, id, attempts[1..], sent + once.sent, kills + 1);
          assert r.sent[..|sent|] == (r.sent[..|sent + once.sent|])[..|sent|];
        }
      }
    }
  }

  /** The run counter grows by exactly one when a run is returned, and not at all otherwise. */
  lemma {:induction false} RetryCountsOnce(s: Supervisor, prefix: string, creator: Option<string>, wf: string,
                                           id: string, attempts: seq<Attempt>, sent: seq<MakeRequest>, kills: nat)
    ensures var r := RetryLoop(s, prefix, creator, wf, id, attempts, sent, kills);
            r.after.runCount == if r.result.Returned? then s.runCount + 1 else s.runCount
    decreases |attempts|
  {
    if attempts != [] {
      var a := attempts[0];
      var init := InitStep(s, prefix, a.spawn);
      if init.outcome.Normal? {
        var once := RunOnceStep(init.after, prefix, creator, wf, id, a.spawn, a.make);
        RunOnceCounts(init.after, prefix, creator, wf, id, a.spawn, a.make);
        if once.result.Threw? && IsConnectionFailure(once.result.error) {
          RetryCountsOnce(KillStep(once.after, a.teardown).after, prefix, creator, wf, id, attempts[1..], sent + once.sent, kills + 1);
        }
      }
    }
  }

  /** A spawn whose process starts and whose factory is found before the deadline. */
  predicate Reaches(spawn: Spawn) {
    spawn.start.Started? && FirstFound(spawn.polls) < |spawn.polls|
  }

  /**
   * When every attempt can reach a factory but every make call loses the
   * connection, each attempt sends its request, the factory is killed after
   * each, and the loop ends with NoCreateException naming the last spawn.
   */
  lemma {:induction false} RetryExhausts(s: Supervisor, prefix: string, creator: Option<string>, wf: string,
                                         id: string, attempts: seq<Attempt>, sent: seq<MakeRequest>, kills: nat)
    requires forall j :: 0 <= j < |attempts| ==> Reaches(attempts[j].spawn)
    requires forall j :: 0 <= j < |attempts| ==>
               attempts[j].make.MakeFailed? && IsConnectionFailure(attempts[j].make.error)
    ensures var r := RetryLoop(s, prefix, creator, wf, id, attempts, sent, kills);
            && r.result == Threw(NoCreateException(NoCreateMessage(r.after.processName)))
            && |r.sent| == |sent| + |attempts|
            && r.kills == kills + |attempts|
            && (attempts != [] ==> r.after.factory.None? && r.after.process.None?)
            && (attempts != [] && (s.factory.None? || |attempts| >= 2) ==>
                  r.after.processName == Some(prefix + attempts[|attempts| - 1].spawn.uuid))
    decreases |attempts|
  {
    if attempts != [] {
      var a := attempts[0];
      var init := InitStep(s, prefix, a.spawn);
      if s.factory.None? {
        InitFindsFactory(s, prefix, a.spawn);
      }
      assert init.outcome.Normal?;
      var once := RunOnceStep(init.after, prefix, creator, wf, id, a.spawn, a.make);
      RunOnceCounts(init.after, prefix, creator, wf, id, a.spawn, a.make);
      var next := KillStep(once.after, a.teardown).after;
      assert next.factory.None? && next.process.None?;
      RetryExhausts(next, prefix, creator, wf, id, attempts[1..], sent + once.sent, kills + 1);
      if |attempts| == 1 {
        assert attempts[1..] == [];
        assert next.processName == init.after.processName;
      } else {
        assert attempts[1..][|attempts[1..]| - 1] == attempts[|attempts| - 1];
      }
    }
  }

  /** The scenario of three lost connections: three make calls, then NoCreateException, factory gone. */
  lemma ThreeConnectionLossesExhaust(s: Supervisor, prefix: string, creator: Option<string>, wf: string,
                                     id: string, attempts: seq<Attempt>)
    requires |attempts| == MaxAttempts
    requires forall j :: 0 <= j < |attempts| ==> Reaches(attempts[j].spawn)
    requires forall j :: 0 <= j < |attempts| ==>
               attempts[j].make.MakeFailed? && IsConnectionFailure(attempts[j].make.error)
    ensures var r := RetryStep(s, prefix, creator, wf, id, attempts);
            && r.result == Threw(NoCreateException(NoCreateMessage(Some(prefix + attempts[2].spawn.uuid))))
            && r.sent == [RequestFor(creator, wf, id), RequestFor(creator, wf, id), RequestFor(creator, wf, id)]
            && r.kills == MaxAttempts
            && r.after.factory.None? && r.after.process.None?
            && r.after.runCount == s.runCount
  {
    RetryExhausts(s, prefix, creator, wf, id, attempts, [], 0);
    RetryBounded(s, prefix, creator, wf, id, attempts, [], 0);
    RetryCountsOnce(s, prefix, creator, wf, id, attempts, [], 0);
  }

  /** A failure of initFactory propagates at once: no make call, no kill. */
  lemma RetryStopsOnInitFailure(s: Supervisor, prefix: string, creator: Option<string>, wf: string,
                                id: string, attempts: seq<Attempt>, sent: seq<MakeRequest>, kills: nat)
    requires attempts != [] && InitStep(s, prefix, attempts[0].spawn).outcome.Thrown?
    ensures var init := InitStep(s, prefix, attempts[0].spawn);
            RetryLoop(s, prefix, creator, wf, id, attempts, sent, kills) == RunEnd(init.after, Threw(init.outcome.error), sent, kills)
  {
  }

  /** A make failure that is not a lost connection propagates at once, and the factory is not killed. */
  lemma RetryStopsOnOtherFailure(s: Supervisor, prefix: string, creator: Option<string>, wf: string,
                                 id: string, attempts: seq<Attempt>, sent: seq<MakeRequest>, kills: nat)
    requires attempts != [] && InitStep(s, prefix, attempts[0].spawn).outcome.Normal?
    requires attempts[0].make.MakeFailed? && !IsConnectionFailure(attempts[0].make.error)
    ensures var r := RetryLoop(s, prefix, creator, wf, id, attempts, sent, kills);
            && r.result == Threw(attempts[0].make.error)
            && r.after == InitStep(s, prefix, attempts[0].spawn).after
            && r.after.factory.Some?
            && r.sent == sent + [RequestFor(creator, wf, id)]
            && r.kills == kills
  {
  }

  /** A creation against a held factory that makes the run: one make call, counted once. */
  lemma RetryFirstAttemptSucceeds(s: Supervisor, prefix: string, creator: Option<string>, wf: string,
                                  id: string, attempts: seq<Attempt>)
    requires |attempts| == MaxAttempts && s.factory.Some? && attempts[0].make.Made?
    ensures var r := RetryStep(s, prefix, creator, wf, id, attempts);
            && r.result == Returned(attempts[0].make.run)
            && r.after == s.(runCount := s.runCount + 1)
            && r.sent == [RequestFor(creator, wf, id)]
            && r.kills == 0
  {
  }

  lemma {:induction false} RetryKeepsConsistent(s: Supervisor, prefix: string, creator: Option<string>, wf: string,
                                                id: string, attempts: seq<Attempt>, sent: seq<MakeRequest>, kills: nat)
    requires Consistent(s)
    ensures Consistent(RetryLoop(s, prefix, creator, wf, id, attempts, sent, kills).after)
    decreases |attempts|
  {
    if attempts != [] {
      var a := attempts[0];
      var init := InitStep(s, prefix, a.spawn);
      InitKeepsConsistent(s, prefix, a.spawn);
      if init.outcome.Normal? {
        var once := RunOnceStep(init.after, prefix, creator, wf, id, a.spawn, a.make);
        if once.result.Threw? && IsConnectionFailure(once.result.error) {
          KillKeepsConsistent(once.after, a.teardown);
          RetryKeepsConsistent(KillStep(once.after, a.teardown).after, prefix, creator, wf, id, attempts[1..], sent + once.sent, kills + 1);
        }
      }
    }
  }
}
