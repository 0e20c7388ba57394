/**
 * The master-side supervisor of the worker-factory subprocess (ForkRunFactory):
 * spawning the subprocess and polling the registry until it announces itself,
 * the two-phase teardown, and run creation with kill-and-retry.
 *
 * The operating system, the registry and the remote factory are replaced by
 * oracles: values that list, in order, what each of them answers.
 */
module LocalWorker {
  import opened Failures

  // ---------------------------------------------------------------- handles

  /** A RemoteRunFactory stub obtained from the registry. */
  datatype FactoryRef = FactoryRef(id: nat)
  /** A java.lang.Process for the spawned worker JVM. */
  datatype ProcessRef = ProcessRef(pid: nat)
  /** A RemoteSingleRun stub returned by the remote factory. */
  datatype RunRef = RunRef(id: nat)

  // ---------------------------------------------------------------- oracles

  /** What one try-block of the startup poll loop threw, as its catch clauses tell them apart. */
  datatype PollFault =
    | NotBoundFault
    | RemoteFault(kind: RemoteKind, message: string, cause: Option<Throwable>)
    | RuntimeFault(message: string)

  /**
   * One iteration of the startup poll loop, i.e. one iteration that began
   * before the deadline: the sleep was interrupted; or the sleep completed and
   * the lookup failed; or the lookup found the factory and
   * initInteractionDetails succeeded; or it found it and
   * initInteractionDetails failed.
   */
  datatype PollOutcome =
    | SleepInterrupted
    | LookupFailed(fault: PollFault)
    | Found(factory: FactoryRef)
    | InitFailed(factory: FactoryRef, fault: PollFault)

  /** What ProcessBuilder.start answered. */
  datatype StartOutcome = Started(process: ProcessRef) | StartFailed(error: Exception)

  /**
   * Everything the environment answers to one spawn: the random UUID, the
   * process start, and the poll iterations that fit before the deadline.
   */
  datatype Spawn = Spawn(uuid: string, start: StartOutcome, polls: seq<PollOutcome>)

  /** Phase one of killFactory: factory.shutdown() followed by sleep(700). */
  datatype ShutdownOutcome =
    | ShutdownDone
    | ShutdownSleepInterrupted
    | ShutdownRemoteFailed
    | ShutdownUnchecked(message: string)   // a RuntimeException out of factory.shutdown()

  /**
   * Everything the environment answers to one teardown: phase one, the first
   * exitValue() (None: the process is still running), and the exitValue()
   * after destroy() and sleep(350) (None: still running, or the wait was interrupted).
   */
  datatype Teardown = Teardown(shutdown: ShutdownOutcome, exitValue: Option<int>, exitAfterDestroy: Option<int>)

  /** What the remote factory's make answered. */
  datatype MakeOutcome = Made(run: RunRef) | MakeFailed(error: Exception)

  /** The oracles consumed by one iteration of the run-creation retry loop. */
  datatype Attempt = Attempt(spawn: Spawn, make: MakeOutcome, teardown: Teardown)

  /** The arguments of one call of the remote factory's make. */
  datatype MakeRequest = MakeRequest(workflow: string, user: string, id: string)

  // ---------------------------------------------------------------- state

  /**
   * The five fields of ForkRunFactory, plus the run counter of its base
   * class, as one value.
   */
  datatype Supervisor = Supervisor(
    factory: Option<FactoryRef>,
    process: Option<ProcessRef>,
    processName: Option<string>,
    checkCount: int,
    lastExitCode: Option<int>,
    runCount: nat)

  /** A factory handle is only ever held together with its process and name. */
  ghost predicate Consistent(s: Supervisor) {
    && (s.factory.Some? ==> s.process.Some? && s.processName.Some?)
    && s.checkCount >= 0
  }

  const MaxAttempts: nat := 3
  const UnknownPerson: string := "Unknown Person"

  /** The later of two observations: the second when there is one, else the first. */
  function Latest<T>(earlier: Option<T>, later: Option<T>): Option<T> {
    if later.Some? then later else earlier
  }

  // ------------------------------------------------- initFactory: the poll loop

  /** The exception object a catch clause of the poll loop receives. */
  function FaultException(name: string, fault: PollFault): Exception {
    match fault
    case NotBoundFault => NotBoundException(name)
    case RemoteFault(kind, message, cause) => RemoteException(kind, message, cause)
    case RuntimeFault(message) => RuntimeException(message)
  }

  /**
   * What the poll loop stores in lastException for a fault: a RemoteException
   * is unpacked to its cause when that cause is an Exception (a cause that is
   * an Error fails the cast and is ignored); everything else is kept as caught.
   */
  function Recorded(name: string, fault: PollFault): (r: Exception)
    ensures r == FaultException(name, fault) || (fault.RemoteFault? && fault.cause == Some(Raised(r)))
  {
    match fault
    case RemoteFault(_, _, Some(Raised(cause))) => cause
    case _ => FaultException(name, fault)
  }

  /** Where the poll loop stands when it stops. */
  datatype PollEnd = PollEnd(count: int, factory: Option<FactoryRef>, last: Option<Exception>, found: bool)

  /**
   * The poll loop of initFactory run over the iterations in polls, starting
   * from the counter, the factory field and lastException given.
   */
  function Poll(name: string, polls: seq<PollOutcome>, count: int, factory: Option<FactoryRef>,
                last: Option<Exception>): (r: PollEnd)
    ensures count <= r.count <= count + |polls|
    ensures r.found ==> r.factory.Some?
    decreases |polls|
  {
    if polls == [] then PollEnd(count, factory, last, false)
    else match polls[0]
      case SleepInterrupted => Poll(name, polls[1..], count, factory, last)
      case LookupFailed(fault) => Poll(name, polls[1..], count + 1, factory, Some(Recorded(name, fault)))
      case Found(f) => PollEnd(count + 1, Some(f), last, true)
      case InitFailed(f, fault) => Poll(name, polls[1..], count + 1, Some(f), Some(Recorded(name, fault)))
  }

  /** A state change together with how the Java method ended. */
  datatype Step = Step(after: Supervisor, outcome: Outcome)

  /** initFactory: spawn and wait for the factory, unless one is already held. */
  function InitStep(s: Supervisor, prefix: string, spawn: Spawn): (r: Step)
    ensures r.outcome.Normal? ==> r.after.factory.Some?
  {
    if s.factory.Some? then Step(s, Normal)
    else
      var name := prefix + spawn.uuid;
      match spawn.start
      case StartFailed(e) => Step(s.(processName := Some(name)), Thrown(e))
      case Started(p) =>
        var end := Poll(name, spawn.polls, 0, None, None);
        var after := s.(processName := Some(name), process := Some(p), checkCount := end.count, factory := end.factory);
        if end.found then Step(after, Normal)
        else Step(after, Thrown(if end.last.Some? then end.last.value else InterruptedException))
  }

  // ------------------------------------------------------------- killFactory

  /** How the log line of killFactory classifies an exit code. */
  datatype ExitReport = KilledBySignal(signal: int) | Exited(code: int) | NotYetDead

  function Classify(code: int): (r: ExitReport)
    ensures r.KilledBySignal? <==> code > 128
    ensures r.NotYetDead? <==> code < 0
    ensures r.KilledBySignal? ==> r.signal > 0 && ExitCodeOf(r) == code
    ensures r.Exited? ==> 0 <= r.code <= 128 && ExitCodeOf(r) == code
  {
    if code > 128 then KilledBySignal(code - 128)
    else if code >= 0 then Exited(code)
    else NotYetDead
  }

  /** The exit code a report stands for; -1 is the code killFactory uses for "none obtained". */
  function ExitCodeOf(r: ExitReport): int {
    match r
    case KilledBySignal(n) => n + 128
    case Exited(c) => c
    case NotYetDead => -1
  }

  /**
   * The state after a teardown, whether remote shutdown was requested, the
   * classification that was logged (None: no process was held) and whether
   * destroy() was called.
   */
  datatype KillEnd = KillEnd(after: Supervisor, shutdownRequested: bool, report: Option<ExitReport>, destroyed: bool)

  /**
   * killFactory, with every failure of phase one logged and not propagated.
   * ShutdownUnchecked is treated like the two failures the source catches;
   * KillAsWritten shows what the source does instead.
   */
  function KillStep(s: Supervisor, t: Teardown): (r: KillEnd)
    ensures r.after.factory.None? && r.after.process.None?
    ensures r.shutdownRequested <==> s.factory.Some?
    ensures r.report.Some? <==> s.process.Some?
    ensures r.destroyed ==> s.process.Some? && t.exitValue.None?
  {
    var s1 := s.(factory := None);
    if s.process.None? then KillEnd(s1, s.factory.Some?, None, false)
    else match t.exitValue
      case Some(code) =>
        KillEnd(s1.(process := None, lastExitCode := Some(code)), s.factory.Some?, Some(Classify(code)), false)
      case None =>
        match t.exitAfterDestroy
        case Some(code) =>
          KillEnd(s1.(process := None, lastExitCode := Some(code)), s.factory.Some?, Some(Classify(code)), true)
        case None =>
          KillEnd(s1.(process := None), s.factory.Some?, Some(Classify(-1)), true)
  }

  /**
   * killFactory as written: an unchecked exception out of factory.shutdown()
   * passes the two catch clauses, the finally clause clears factory, and the
   * exception leaves the method before factoryProcess is looked at.
   */
  function KillAsWritten(s: Supervisor, t: Teardown): (r: Step)
    ensures r.after.factory.None?
    ensures r.outcome.Thrown? <==> s.factory.Some? && t.shutdown.ShutdownUnchecked?
    ensures r.outcome.Thrown? ==> r.outcome.error.RuntimeException? && r.after.process == s.process
    ensures r.outcome.Normal? ==> r.after == KillStep(s, t).after
  {
    if s.factory.Some? && t.shutdown.ShutdownUnchecked? then
      Step(s.(factory := None), Thrown(RuntimeException(t.shutdown.message)))
    else Step(KillStep(s, t).after, Normal)
  }

  // ---------------------------------------------------- reinitFactory, getFactory

  /** reinitFactory: kill, then re-initialise only if a factory was held; failures are logged. */
  function ReinitStep(s: Supervisor, prefix: string, t: Teardown, spawn: Spawn): (r: Supervisor)
    ensures s.factory.None? ==> r == KillStep(s, t).after
    ensures r.factory.Some? ==> s.factory.Some?
    ensures r.runCount == s.runCount && r.lastExitCode == KillStep(s, t).after.lastExitCode
  {
    var killed := KillStep(s, t).after;
    if s.factory.Some? then InitStep(killed, prefix, spawn).after else killed
  }

  datatype FactoryStep = FactoryStep(after: Supervisor, result: Result<FactoryRef>)

  /** getFactory: initFactory, with every non-remote failure wrapped in a RemoteException. */
  function GetFactoryStep(s: Supervisor, prefix: string, spawn: Spawn): (r: FactoryStep)
    ensures r.after == InitStep(s, prefix, spawn).after
    ensures r.result.Returned? ==> r.after.factory == Some(r.result.value)
    ensures r.result.Threw? ==> r.result.error.RemoteException?
  {
    var init := InitStep(s, prefix, spawn);
    match init.outcome
    case Normal => FactoryStep(init.after, Returned(init.after.factory.value))
    case Thrown(e) =>
      FactoryStep(init.after, Threw(if e.RemoteException? then e
                                    else RemoteException(PlainRemote, "problem constructing factory", Some(Raised(e)))))
  }

  // ------------------------------------------------------------- getRealRun

  /**
   * The make call for a creator principal (None: null), a serialized workflow
   * and a run id: the principal's name is sent as the user, and a null creator
   * as "Unknown Person".
   */
  function RequestFor(creator: Option<string>, wf: string, id: string): (r: MakeRequest)
    ensures r.workflow == wf && r.id == id
    ensures creator.Some? ==> r.user == creator.value
    ensures creator.None? ==> r.user == UnknownPerson
  {
    MakeRequest(wf, if creator.Some? then creator.value else UnknownPerson, id)
  }

  /**
   * The state after run creation, its result, the make calls sent to the
   * remote factory, and how many times killFactory ran.
   */
  datatype RunEnd = RunEnd(after: Supervisor, result: Result<RunRef>, sent: seq<MakeRequest>, kills: nat)

  /** The inner getRealRun(creator, wf, id): one make call, counted when it returns. */
  function RunOnceStep(s: Supervisor, prefix: string, creator: Option<string>, wf: string, id: string,
                       spawn: Spawn, make: MakeOutcome): (r: RunEnd)
    ensures r.kills == 0 && |r.sent| <= 1
    ensures r.sent != [] ==> r.sent[0] == RequestFor(creator, wf, id)
    ensures r.result.Returned? ==> make == Made(r.result.value) && r.sent != []
    ensures r.after.runCount == if r.result.Returned? then s.runCount + 1 else s.runCount
  {
    var g := GetFactoryStep(s, prefix, spawn);
    match g.result
    case Threw(e) => RunEnd(g.after, Threw(e), [], 0)
    case Returned(_) =>
      var request := RequestFor(creator, wf, id);
      match make
      case Made(run) => RunEnd(g.after.(runCount := g.after.runCount + 1), Returned(run), [request], 0)
      case MakeFailed(e) => RunEnd(g.after, Threw(e), [request], 0)
  }

  /** The fixed text around the factory name in the NoCreateException message. */
  const NoCreateLead: string := "total failure to connect to factory "
  const NoCreateTail: string := "despite attempting restart"

  /** The text of the NoCreateException, with Java's rendering of a null name. */
  function NoCreateMessage(name: Option<string>): (r: string)
    ensures |r| >= |NoCreateLead| + |NoCreateTail|
    ensures r[..|NoCreateLead|] == NoCreateLead && r[|r| - |NoCreateTail|..] == NoCreateTail
    ensures r[|NoCreateLead|..|r| - |NoCreateTail|] == if name.Some? then name.value else "null"
  {
    var named := if name.Some? then name.value else "null";
    var r := NoCreateLead + named + NoCreateTail;
    assert r[..|NoCreateLead|] == NoCreateLead;
    assert r[|r| - |NoCreateTail|..] == NoCreateTail;
    assert r[|NoCreateLead|..|r| - |NoCreateTail|] == named;
    r
  }

  /**
   * The remaining iterations of the retry loop, one per element of attempts,
   * after the make calls in sent and the given number of kills. Every kill
   * follows a make call of its own.
   */
  function RetryLoop(s: Supervisor, prefix: string, creator: Option<string>, wf: string, id: string,
                     attempts: seq<Attempt>, sent: seq<MakeRequest>, kills: nat): (r: RunEnd)
    ensures |sent| <= |r.sent| <= |sent| + |attempts|
    ensures kills <= r.kills <= kills + (|r.sent| - |sent|)
    decreases |attempts|
  {
    if attempts == [] then RunEnd(s, Threw(NoCreateException(NoCreateMessage(s.processName))), sent, kills)
    else
      var a := attempts[0];
      var init := InitStep(s, prefix, a.spawn);
      if init.outcome.Thrown? then RunEnd(init.after, Threw(init.outcome.error), sent, kills)
      else
        var once := RunOnceStep(init.after, prefix, creator, wf, id, a.spawn, a.make);
        if once.result.Threw? && IsConnectionFailure(once.result.error) then
          RetryLoop(KillStep(once.after, a.teardown).after, prefix, creator, wf, id, attempts[1..],
                    sent + once.sent, kills + 1)
        else RunEnd(once.after, once.result, sent + once.sent, kills)
  }

  /** getRealRun(creator, workflow, id) for an already serialized workflow. */
  function RetryStep(s: Supervisor, prefix: string, creator: Option<string>, wf: string, id: string,
                     attempts: seq<Attempt>): (r: RunEnd)
    requires |attempts| == MaxAttempts
    ensures r.kills <= |r.sent| <= MaxAttempts
  {
    RetryLoop(s, prefix, creator, wf, id, attempts, [], 0)
  }

  // ------------------------------------------------------------- the class

  class ForkRunFactory {
    /** The configured prefix of factory process names. */
    const prefix: string

    var lastStartupCheckCount: int
    var lastExitCode: Option<int>
    var factory: Option<FactoryRef>
    var factoryProcess: Option<ProcessRef>
    var factoryProcessName: Option<string>
    /** The run counter kept by the base class and bumped by incrementRunCount. */
    var runCount: nat

    function Snapshot(): Supervisor
      reads this
    {
      Supervisor(factory, factoryProcess, factoryProcessName, lastStartupCheckCount, lastExitCode, runCount)
    }

    constructor (prefix: string)
      ensures this.prefix == prefix
      ensures Snapshot() == Supervisor(None, None, None, 0, None, 0)
    {
      this.prefix := prefix;
      lastStartupCheckCount := 0;
      lastExitCode := None;
      factory := None;
      factoryProcess := None;
      factoryProcessName := None;
      runCount := 0;
    }

    method InitFactory(spawn: Spawn) returns (outcome: Outcome)
      modifies this
      ensures Step(Snapshot(), outcome) == InitStep(old(Snapshot()), prefix, spawn)
    {
      if factory.Some? {
        return Normal;
      }
      var name := prefix + spawn.uuid;
      factoryProcessName := Some(name);
      match spawn.start
      case StartFailed(e) =>
        return Thrown(e);
      case Started(p) =>
        factoryProcess := Some(p);
        var polls := spawn.polls;
        var lastException: Option<Exception> := None;
        lastStartupCheckCount := 0;
        var i := 0;
        while i < |polls|
          invariant 0 <= i <= |polls|
          invariant Poll(name, polls[i..], lastStartupCheckCount, factory, lastException) == Poll(name, polls, 0, None, None)
          invariant factoryProcessName == Some(name) && factoryProcess == Some(p)
          invariant lastExitCode == old(lastExitCode) && runCount == old(runCount)
        {
          assert polls[i..][0] == polls[i] && polls[i..][1..] == polls[i + 1..];
          match polls[i] {
            case SleepInterrupted =>
            case LookupFailed(fault) =>
              lastStartupCheckCount := lastStartupCheckCount + 1;
              lastException := Some(Recorded(name, fault));
            case Found(f) =>
              lastStartupCheckCount := lastStartupCheckCount + 1;
              factory := Some(f);
              return Normal;
            case InitFailed(f, fault) =>
              lastStartupCheckCount := lastStartupCheckCount + 1;
              factory := Some(f);
              lastException := Some(Recorded(name, fault));
          }
          i := i + 1;
        }
        return Thrown(if lastException.Some? then lastException.value else InterruptedException);
    }

    method KillFactory(t: Teardown) returns (shutdownRequested: bool, report: Option<ExitReport>, destroyed: bool)
      modifies this
      ensures KillEnd(Snapshot(), shutdownRequested, report, destroyed) == KillStep(old(Snapshot()), t)
    {
      shutdownRequested := factory.Some?;
      // Phase one: every answer of the remote shutdown is only logged.
      factory := None;
      report, destroyed := None, false;
      if factoryProcess.Some? {
        var code := -1;
        match t.exitValue {
          case Some(c) =>
            code := c;
            lastExitCode := Some(c);
          case None =>
            destroyed := true;
            if t.exitAfterDestroy.Some? {
              code := t.exitAfterDestroy.value;
              lastExitCode := Some(code);
            }
        }
        factoryProcess := None;
        report := Some(Classify(code));
      }
    }

    method ReinitFactory(t: Teardown, spawn: Spawn)
      modifies this
      ensures Snapshot() == ReinitStep(old(Snapshot()), prefix, t, spawn)
    {
      var makeFactory := factory.Some?;
      var _, _, _ := KillFactory(t);
      if makeFactory {
        var _ := InitFactory(spawn);
      }
    }

    method GetFactory(spawn: Spawn) returns (r: Result<FactoryRef>)
      modifies this
      ensures FactoryStep(Snapshot(), r) == GetFactoryStep(old(Snapshot()), prefix, spawn)
    {
      var o := InitFactory(spawn);
      match o
      case Thrown(e) =>
        if e.RemoteException? {
          return Threw(e);
        }
        return Threw(RemoteException(PlainRemote, "problem constructing factory", Some(Raised(e))));
      case Normal =>
        return Returned(factory.value);
    }

    /** The inner getRealRun(creator, wf, id); sent lists the make call, if one was made. */
    method GetRealRunOnce(creator: Option<string>, wf: string, id: string, spawn: Spawn, make: MakeOutcome)
      returns (r: Result<RunRef>, sent: seq<MakeRequest>)
      modifies this
      ensures RunEnd(Snapshot(), r, sent, 0) == RunOnceStep(old(Snapshot()), prefix, creator, wf, id, spawn, make)
    {
      var request := RequestFor(creator, wf, id);
      var f := GetFactory(spawn);
      if f.Threw? {
        return Threw(f.error), [];
      }
      sent := [request];
      match make
      case MakeFailed(e) =>
        r := Threw(e);
      case Made(run) =>
        runCount := runCount + 1;
        r := Returned(run);
    }

    /**
     * getRealRun(creator, workflow, id), given the serialized workflow and one
     * Attempt per iteration; kills counts the calls of killFactory.
     */
    method GetRealRun(creator: Option<string>, wf: string, id: string, attempts: seq<Attempt>)
      returns (r: Result<RunRef>, sent: seq<MakeRequest>, kills: nat)
      requires |attempts| == MaxAttempts
      modifies this
      ensures RunEnd(Snapshot(), r, sent, kills) == RetryStep(old(Snapshot()), prefix, creator, wf, id, attempts)
    {
      ghost var s0 := Snapshot();
      sent, kills := [], 0;
      for i := 0 to MaxAttempts
        invariant RetryLoop(Snapshot(), prefix, creator, wf, id, attempts[i..], sent, kills)
               == RetryLoop(s0, prefix, creator, wf, id, attempts, [], 0)
      {
        assert attempts[i..][0] == attempts[i] && attempts[i..][1..] == attempts[i + 1..];
        var o := InitFactory(attempts[i].spawn);
        if o.Thrown? {
          return Threw(o.error), sent, kills;
        }
        var once, call := GetRealRunOnce(creator, wf, id, attempts[i].spawn, attempts[i].make);
        sent := sent + call;
        if once.Returned? || !IsConnectionFailure(once.error) {
          return once, sent, kills;
        }
        // The factory was lost: kill it and try again.
        var _, _, _ := KillFactory(attempts[i].teardown);
        kills := kills + 1;
      }
      assert attempts[MaxAttempts..] == [];
      r := Threw(NoCreateException(NoCreateMessage(factoryProcessName)));
    }
  }
}
