/**
 * The worker-side factory (TavernaRunManager): building runs with error
 * translation, and the JVM-wide shutdown guard that unbinds the factory's
 * registry name at most once.
 *
 * The XML library and the reflective run constructor are replaced by
 * oracles that say whether they succeeded; the RMI registry by a small class
 * holding its bindings.
 */
module WorkerImpl {
  import opened Failures

  /** The reflective constructor of the per-run server object. */
  datatype RunConstructor = RunConstructor(className: string)
  /** The class that manages the connection to the workflow engine. */
  datatype WorkerClass = WorkerClass(className: string)
  /** A RemoteSingleRun made by the run constructor. */
  datatype SingleRun = SingleRun(id: nat)

  /** What the XML parse, unwrapWorkflow and the transform answered. */
  datatype Extraction = Extracted(workflow: string) | ExtractionFailed(error: Exception)

  /** What cons.newInstance answered. */
  datatype Construction =
    | Constructed(run: SingleRun)
    | TargetThrew(target: Throwable)       // InvocationTargetException with this target
    | ConstructionFailed(error: Exception) // any other failure of newInstance

  /** The arguments given to the run constructor. */
  datatype BuilderCall = BuilderCall(command: string, workflow: string, workerClass: WorkerClass)

  /** The result of make and the constructor call it made, if any. */
  datatype MakeResult = MakeResult(result: Result<SingleRun>, call: Option<BuilderCall>)

  const LocalWorkerConstructor: RunConstructor := RunConstructor("LocalWorker(String, String, Class)")
  const WorkerCoreClass: WorkerClass := WorkerClass("WorkerCore")
  const Usage: string := "java -jar server.worker.jar workflowExecScript UUID"
  const WrongArgsMessage: string := "wrong # args: must be \"" + Usage + "\""
  /** What a registry that cannot be reached throws. */
  const Unreachable: Exception := RemoteException(ConnectFailure, "registry unreachable", None)

  /** The failure that make reports, before it is translated. */
  function OriginalFailure(extraction: Extraction, construction: Construction): Throwable
    requires !(extraction.Extracted? && construction.Constructed?)
  {
    if extraction.ExtractionFailed? then Raised(extraction.error)
    else if construction.TargetThrew? then construction.target
    else Raised(construction.error)
  }

  class TavernaRunManager {
    const command: string
    const cons: RunConstructor
    const workerClass: WorkerClass

    constructor (command: string, cons: RunConstructor, workerClass: WorkerClass)
      ensures this.command == command && this.cons == cons && this.workerClass == workerClass
    {
      this.command := command;
      this.cons := cons;
      this.workerClass := workerClass;
    }

    /**
     * make: extract the inner workflow, then build the run. Only
     * RemoteExceptions leave it, and the original failure is always either
     * what is thrown or its cause.
     */
    function Make(extraction: Extraction, construction: Construction): (r: MakeResult)
      ensures r.call.Some? <==> extraction.Extracted?
      ensures r.call.Some? ==> r.call.value == BuilderCall(command, extraction.workflow, workerClass)
      ensures r.result.Returned? <==> extraction.Extracted? && construction.Constructed?
      ensures r.result.Returned? ==> r.result.value == construction.run
      ensures r.result.Threw? ==> r.result.error.RemoteException?
      ensures r.result.Threw? ==>
                var original := OriginalFailure(extraction, construction);
                original == Raised(r.result.error) || r.result.error.cause == Some(original)
    {
      match extraction
      case ExtractionFailed(e) =>
        MakeResult(Threw(RemoteException(PlainRemote, "failed to extract contained workflow", Some(Raised(e)))), None)
      case Extracted(wf) =>
        var call := Some(BuilderCall(command, wf, workerClass));
        match construction
        case Constructed(run) => MakeResult(Returned(run), call)
        case TargetThrew(target) =>
          if target.Raised? && target.exception.RemoteException? then MakeResult(Threw(target.exception), call)
          else MakeResult(Threw(RemoteException(PlainRemote, "unexpected exception", Some(target))), call)
        case ConstructionFailed(e) =>
          MakeResult(Threw(RemoteException(PlainRemote, "bad instance construction", Some(Raised(e)))), call)
    }
  }

  /** The RMI registry the worker binds its factory in. */
  class Registry {
    var bindings: map<string, TavernaRunManager>

    constructor ()
      ensures bindings == map[]
    {
      bindings := map[];
    }

    method Bind(name: string, obj: TavernaRunManager, reachable: bool) returns (o: Outcome)
      modifies this
      ensures !reachable ==> o == Thrown(Unreachable) && bindings == old(bindings)
      ensures reachable && name in old(bindings) ==> o == Thrown(AlreadyBoundException(name)) && bindings == old(bindings)
      ensures reachable && name !in old(bindings) ==> o == Normal && bindings == old(bindings)[name := obj]
    {
      if !reachable {
        return Thrown(Unreachable);
      }
      if name in bindings {
        return Thrown(AlreadyBoundException(name));
      }
      bindings := bindings[name := obj];
      return Normal;
    }

    method Unbind(name: string, reachable: bool) returns (o: Outcome)
      modifies this
      ensures !reachable ==> o == Thrown(Unreachable) && bindings == old(bindings)
      ensures reachable && name !in old(bindings) ==> o == Thrown(NotBoundException(name)) && bindings == old(bindings)
      ensures reachable && name in old(bindings) ==> o == Normal && bindings == old(bindings) - {name}
    {
      if !reachable {
        return Thrown(Unreachable);
      }
      if name !in bindings {
        return Thrown(NotBoundException(name));
      }
      bindings := bindings - {name};
      return Normal;
    }
  }

  /** The two command-line arguments of the worker. */
  datatype WorkerArguments = WorkerArguments(command: string, factoryName: string)

  /** The argument check of main. */
  function ParseArguments(args: seq<string>): (r: Result<WorkerArguments>)
    ensures r.Returned? <==> |args| == 2
    ensures r.Returned? ==> CommandLine(r.value) == args
    ensures r.Threw? ==> r.error == PlainException(WrongArgsMessage)
  {
    if |args| != 2 then Threw(PlainException(WrongArgsMessage))
    else Returned(WorkerArguments(args[0], args[1]))
  }

  /** The inverse of ParseArguments: the command line for given arguments. */
  function CommandLine(a: WorkerArguments): seq<string> {
    [a.command, a.factoryName]
  }

  /** Exactly the two-element command lines are accepted, and each is read back as it was written. */
  lemma ParseArgumentsRoundTrip(args: seq<string>, a: WorkerArguments)
    ensures ParseArguments(CommandLine(a)) == Returned(a)
    ensures ParseArguments(args).Returned? <==> |args| == 2
    ensures ParseArguments(args).Returned? ==> CommandLine(ParseArguments(args).value) == args
    ensures ParseArguments(args).Threw? ==> ParseArguments(args).error == PlainException(WrongArgsMessage)
  {
  }

  /** The error translation of make, case by case. */
  lemma MakeTranslatesErrors(m: TavernaRunManager, extraction: Extraction, construction: Construction)
    ensures var r := m.Make(extraction, construction);
            && (extraction.ExtractionFailed? ==>
                  r == MakeResult(Threw(RemoteException(PlainRemote, "failed to extract contained workflow",
                                                        Some(Raised(extraction.error)))), None))
            && (extraction.Extracted? && construction.TargetThrew? && construction.target.Raised?
                  && construction.target.exception.RemoteException? ==>
                  r.result == Threw(construction.target.exception))
            && (extraction.Extracted? && construction.TargetThrew?
                  && !(construction.target.Raised? && construction.target.exception.RemoteException?) ==>
                  r.result == Threw(RemoteException(PlainRemote, "unexpected exception", Some(construction.target))))
            && (extraction.Extracted? && construction.ConstructionFailed? ==>
                  r.result == Threw(RemoteException(PlainRemote, "bad instance construction",
                                                    Some(Raised(construction.error)))))
  {
  }

  /**
   * The JVM-wide state of the worker: the static fields of TavernaRunManager,
   * whether the shutdown hook and the delayed exit exist, and how the JVM
   * exited. unbinds counts the calls of registry.unbind.
   */
  class WorkerProcess {
    var shuttingDown: bool
    var factoryName: Option<string>
    var registry: Registry?
    var hookInstalled: bool
    var exitScheduled: bool
    var exitStatus: Option<int>
    ghost var unbinds: nat

    /** unbind has been called at most once, and not before shutting down began. */
    ghost predicate Valid()
      reads this
    {
      unbinds <= 1 && (!shuttingDown ==> unbinds == 0)
    }

    /** Whether unregisterFactory would call unbind now. */
    predicate WillUnbind()
      reads this
    {
      !shuttingDown && factoryName.Some? && registry != null
    }

    constructor ()
      ensures Valid()
      ensures !shuttingDown && factoryName.None? && registry == null
      ensures !hookInstalled && !exitScheduled && exitStatus.None? && unbinds == 0
    {
      shuttingDown := false;
      factoryName := None;
      registry := null;
      hookInstalled := false;
      exitScheduled := false;
      exitStatus := None;
      unbinds := 0;
    }

    /**
     * unregisterFactory: the first call sets shuttingDown and unbinds the
     * name, when both it and the registry are known; a failed unbind is only
     * printed. Later calls do nothing.
     */
    method UnregisterFactory(reachable: bool)
      requires Valid()
      modifies this, registry
      ensures Valid() && shuttingDown
      ensures factoryName == old(factoryName) && registry == old(registry)
      ensures hookInstalled == old(hookInstalled) && exitScheduled == old(exitScheduled) && exitStatus == old(exitStatus)
      ensures unbinds == old(unbinds) + (if old(WillUnbind()) then 1 else 0)
      ensures registry != null ==>
                registry.bindings == if old(WillUnbind()) && reachable then old(registry.bindings) - {factoryName.value}
                                     else old(registry.bindings)
    {
      if !shuttingDown {
        shuttingDown := true;
        if factoryName.Some? && registry != null {
          unbinds := unbinds + 1;
          var _ := registry.Unbind(factoryName.value, reachable);
        }
      }
    }

    /** shutdown: unregister, then start the thread that exits after a delay. */
    method Shutdown(reachable: bool)
      requires Valid()
      modifies this, registry
      ensures Valid() && shuttingDown && exitScheduled
      ensures factoryName == old(factoryName) && registry == old(registry)
      ensures hookInstalled == old(hookInstalled) && exitStatus == old(exitStatus)
      ensures unbinds == old(unbinds) + (if old(WillUnbind()) then 1 else 0)
      ensures registry != null ==>
                registry.bindings == if old(WillUnbind()) && reachable then old(registry.bindings) - {factoryName.value}
                                     else old(registry.bindings)
    {
      UnregisterFactory(reachable);
      exitScheduled := true;
    }

    /** The shutdown hook: the same once-only guard. */
    method RunShutdownHook(reachable: bool)
      requires Valid()
      modifies this, registry
      ensures Valid()
      ensures shuttingDown == (old(shuttingDown) || hookInstalled)
      ensures factoryName == old(factoryName) && registry == old(registry)
      ensures hookInstalled == old(hookInstalled) && exitScheduled == old(exitScheduled) && exitStatus == old(exitStatus)
      ensures unbinds == old(unbinds) + (if hookInstalled && old(WillUnbind()) then 1 else 0)
      ensures registry != null ==>
                registry.bindings == if hookInstalled && old(WillUnbind()) && reachable
                                     then old(registry.bindings) - {factoryName.value}
                                     else old(registry.bindings)
    {
      if hookInstalled {
        UnregisterFactory(reachable);
      }
    }

    /**
     * The delayed-exit thread: whether or not its sleep is interrupted, it
     * calls exit(0), which runs the shutdown hook.
     */
    method RunDelayedExit(interrupted: bool, reachable: bool)
      requires Valid() && exitScheduled
      modifies this, registry
      ensures Valid() && exitStatus == Some(0)
      ensures shuttingDown == (old(shuttingDown) || hookInstalled)
      ensures factoryName == old(factoryName) && registry == old(registry) && hookInstalled == old(hookInstalled)
      ensures unbinds == old(unbinds) + (if hookInstalled && old(WillUnbind()) then 1 else 0)
      ensures registry != null ==>
                registry.bindings == if hookInstalled && old(WillUnbind()) && reachable
                                     then old(registry.bindings) - {factoryName.value}
                                     else old(registry.bindings)
    {
      RunShutdownHook(reachable);
      exitStatus := Some(0);
    }

    /**
     * main: check the arguments, remember the factory name and the registry,
     * bind a new TavernaRunManager under the name, and install the shutdown
     * hook once bound.
     */
    method Launch(args: seq<string>, reg: Registry, reachable: bool) returns (o: Outcome, manager: TavernaRunManager?)
      requires Valid()
      modifies this, reg
      ensures Valid()
      ensures shuttingDown == old(shuttingDown) && unbinds == old(unbinds)
      ensures exitScheduled == old(exitScheduled) && exitStatus == old(exitStatus)
      ensures |args| != 2 ==>
                && o == Thrown(PlainException(WrongArgsMessage)) && manager == null
                && factoryName == old(factoryName) && registry == old(registry)
                && hookInstalled == old(hookInstalled) && reg.bindings == old(reg.bindings)
      ensures |args| == 2 ==>
                && factoryName == Some(args[1]) && registry == reg
                && manager != null && fresh(manager)
                && manager.command == args[0] && manager.cons == LocalWorkerConstructor
                && manager.workerClass == WorkerCoreClass
                && (o.Normal? <==> reachable && args[1] !in old(reg.bindings))
                && (o.Thrown? ==> o.error == if reachable then AlreadyBoundException(args[1]) else Unreachable)
                && reg.bindings == (if o.Normal? then old(reg.bindings)[args[1] := manager] else old(reg.bindings))
                && hookInstalled == (old(hookInstalled) || o.Normal?)
    {
      var parsed := ParseArguments(args);
      if parsed.Threw? {
        return Thrown(parsed.error), null;
      }
      var command := parsed.value.command;
      factoryName := Some(parsed.value.factoryName);
      registry := reg;
      manager := new TavernaRunManager(command, LocalWorkerConstructor, WorkerCoreClass);
      o := reg.Bind(parsed.value.factoryName, manager, reachable);
      if o.Normal? {
        hookInstalled := true;
      }
    }
  }

  /**
   * A worker that was launched, told to shut down, and then exited (running
   * its hook) has called unbind exactly once, and the name is gone when the
   * registry was reachable.
   */
  method ShutdownSequence(args: seq<string>, reg: Registry, interrupted: bool) returns (w: WorkerProcess)
    requires |args| == 2 && args[1] !in reg.bindings
    modifies reg
    ensures w.Valid() && w.shuttingDown && w.exitStatus == Some(0)
    ensures w.unbinds == 1
    ensures args[1] !in reg.bindings
  {
    w := new WorkerProcess();
    var o, _ := w.Launch(args, reg, true);
    w.Shutdown(true);
    w.RunDelayedExit(interrupted, true);
  }
}
