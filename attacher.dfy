/**
 * The startup path of the csi-attacher sidecar: talk to the CSI driver, pick
 * the attach handler, and decide how the controller is run.
 */
module Attacher {
  import opened Wrappers
  import opened Capabilities
  import opened Handlers
  import opened LeaderElection

  /** The driver name the dummy mode uses instead of asking a driver. */
  const DummyAttacherName: string := "csi/dummy"

  /** The calls the startup path makes to the CSI driver, in the order it makes them. */
  datatype Call =
    | Connect
    | Probe
    | GetDriverName
    | GetPluginCapabilities
    | GetControllerCapabilities

  const CallOrder: seq<Call> :=
    [Connect, Probe, GetDriverName, GetPluginCapabilities, GetControllerCapabilities]

  /**
   * What the connected driver answers to each call, would it be made.
   * The connection is opaque here, so connecting and probing only succeed or fail.
   */
  datatype Plugin = Plugin(
    connect: Result<()>,
    probe: Result<()>,
    driverName: Result<string>,
    pluginCapabilities: Result<PluginCapabilities>,
    controllerCapabilities: Result<ControllerCapabilities>)

  /** The error a call fails with, if it does. */
  function Failure(plugin: Plugin, call: Call): Option<Error> {
    match call
    case Connect => ErrorOf(plugin.connect)
    case Probe => ErrorOf(plugin.probe)
    case GetDriverName => ErrorOf(plugin.driverName)
    case GetPluginCapabilities => ErrorOf(plugin.pluginCapabilities)
    case GetControllerCapabilities => ErrorOf(plugin.controllerCapabilities)
  }

  function ErrorOf<T>(reply: Result<T>): Option<Error> {
    if reply.Err? then Some(reply.error) else None
  }

  /** The driver answered GetPluginCapabilities with CONTROLLER_SERVICE set. */
  predicate HasControllerService(plugin: Plugin) {
    plugin.pluginCapabilities.Ok? && Has(plugin.pluginCapabilities.value, ControllerService)
  }

  /** The end of the handler selection: exit with the failed call's error, or go on with a driver name and handler. */
  datatype Bootstrapped =
    | Abort(step: Call, error: Error)
    | Ready(driverName: string, handler: Handler)

  /**
   * What the handler selection does, stated on its calls and its outcome.
   * In dummy mode it calls nothing and takes the dummy name with the Trivial
   * handler. Otherwise the calls are a prefix of CallOrder, every call before
   * the last was answered, and the controller capabilities are asked for only
   * when the controller service is reported. It aborts exactly when the last
   * call failed, naming that call and its error. When it goes on, the driver
   * name is the driver's answer; the handler is SelectHandler of both
   * capability maps when the controller capabilities were asked for, and
   * otherwise Trivial (which SelectHandler gives then for any controller
   * capabilities).
   */
  ghost predicate Bootstraps(dummy: bool, plugin: Plugin, outcome: Bootstrapped, calls: seq<Call>) {
    if dummy then
      outcome == Ready(DummyAttacherName, Trivial) && calls == []
    else
      && 0 < |calls| <= |CallOrder|
      && calls == CallOrder[..|calls|]
      && (forall i | 0 <= i < |calls| - 1 :: Failure(plugin, calls[i]).None?)
      && (GetControllerCapabilities in calls ==> HasControllerService(plugin))
      && match outcome
         case Abort(step, error) =>
           step == calls[|calls| - 1] && Failure(plugin, step) == Some(error)
         case Ready(name, handler) =>
           && Failure(plugin, calls[|calls| - 1]).None?
           && GetPluginCapabilities in calls
           && (HasControllerService(plugin) ==> GetControllerCapabilities in calls)
           && plugin.driverName == Ok(name)
           && plugin.pluginCapabilities.Ok?
           && if GetControllerCapabilities in calls then
                plugin.controllerCapabilities.Ok? &&
                handler == SelectHandler(plugin.pluginCapabilities.value, plugin.controllerCapabilities.value)
              else
                handler == Trivial
  }

  /**
   * The handler selection of the sidecar's main: in dummy mode the Trivial
   * handler; otherwise connect, probe, ask for the driver name and the plugin
   * capabilities and, only with the controller service, for the controller
   * capabilities, stopping at the first error.
   */
  method Bootstrap(dummy: bool, plugin: Plugin) returns (outcome: Bootstrapped, calls: seq<Call>)
    ensures Bootstraps(dummy, plugin, outcome, calls)
  {
    if dummy {
      return Ready(DummyAttacherName, Trivial), [];
    }
    calls := [Connect];
    if plugin.connect.Err? {
      return Abort(Connect, plugin.connect.error), calls;
    }
    calls := calls + [Probe];
    if plugin.probe.Err? {
      return Abort(Probe, plugin.probe.error), calls;
    }
    calls := calls + [GetDriverName];
    if plugin.driverName.Err? {
      return Abort(GetDriverName, plugin.driverName.error), calls;
    }
    var driverName := plugin.driverName.value;

    calls := calls + [GetPluginCapabilities];
    var service := SupportsPluginControllerService(plugin.pluginCapabilities);
    if service.err.Some? {
      return Abort(GetPluginCapabilities, service.err.value), calls;
    }
    if !service.supported {
      return Ready(driverName, Trivial), calls;
    }

    calls := calls + [GetControllerCapabilities];
    var publish := SupportsControllerPublish(plugin.controllerCapabilities);
    if publish.err.Some? {
      return Abort(GetControllerCapabilities, publish.err.value), calls;
    }
    var handler := if publish.attach then Csi(publish.readOnly) else Trivial;
    return Ready(driverName, handler), calls;
  }

  /** The contract of Bootstrap leaves exactly one outcome and one sequence of calls. */
  lemma BootstrapsDeterministic(dummy: bool, plugin: Plugin,
                                o1: Bootstrapped, c1: seq<Call>, o2: Bootstrapped, c2: seq<Call>)
    requires Bootstraps(dummy, plugin, o1, c1)
    requires Bootstraps(dummy, plugin, o2, c2)
    ensures o1 == o2 && c1 == c2
  {
    if !dummy {
      ShorterIsNotBootstrap(plugin, o1, c1, o2, c2);
      ShorterIsNotBootstrap(plugin, o2, c2, o1, c1);
    }
  }

  /** One call sequence is never a strict prefix of another that also meets the contract. */
  lemma ShorterIsNotBootstrap(plugin: Plugin, o1: Bootstrapped, c1: seq<Call>, o2: Bootstrapped, c2: seq<Call>)
    requires Bootstraps(false, plugin, o1, c1)
    requires Bootstraps(false, plugin, o2, c2)
    ensures |c1| >= |c2|
  {
  }

  /**
   * When every call that is made succeeds, a handler is chosen. The controller
   * capabilities only need to be answered when the controller service is
   * reported; otherwise their failure does not stop startup.
   */
  lemma BootstrapTotal(dummy: bool, plugin: Plugin, outcome: Bootstrapped, calls: seq<Call>)
    requires Bootstraps(dummy, plugin, outcome, calls)
    requires plugin.connect.Ok? && plugin.probe.Ok? && plugin.driverName.Ok? && plugin.pluginCapabilities.Ok?
    requires HasControllerService(plugin) ==> plugin.controllerCapabilities.Ok?
    ensures outcome.Ready?
  {
  }

  /** The settings of the sidecar's command line that the startup path reads. */
  datatype Config = Config(
    dummy: bool,
    leaderElection: bool,
    leaderElectionType: string,
    leaderElectionNamespace: string)

  /**
   * Where startup ends: the process exits after a failed call to the driver,
   * or the controller is built with a driver name and handler and then run as
   * the election plan says (a Fatal plan exits the process).
   */
  datatype Startup =
    | DriverFailed(step: Call, error: Error)
    | Started(driverName: string, handler: Handler, election: Election)

  /** The handler selection a startup outcome went through. */
  function Selection(s: Startup): Bootstrapped {
    match s
    case DriverFailed(step, error) => Abort(step, error)
    case Started(name, handler, _) => Ready(name, handler)
  }

  /** The process ends with exit status 1 at startup. */
  predicate ExitsWithFailure(s: Startup) {
    s.DriverFailed? || s.election.Fatal?
  }

  /**
   * The decision path of main: select the handler, then plan the leader
   * election with the chosen driver name. A driver failure is reported before
   * any look at the leader election flags.
   */
  method Start(config: Config, plugin: Plugin) returns (s: Startup, calls: seq<Call>)
    ensures Bootstraps(config.dummy, plugin, Selection(s), calls)
    ensures s.Started? ==>
              s.election == PlanLeaderElection(config.leaderElection, config.leaderElectionType,
                                               config.leaderElectionNamespace, s.driverName)
    ensures ExitsWithFailure(s) <==>
              s.DriverFailed? ||
              (config.leaderElection &&
               config.leaderElectionType != LeaderElectionTypeConfigMaps &&
               config.leaderElectionType != LeaderElectionTypeLeases)
  {
    var outcome;
    outcome, calls := Bootstrap(config.dummy, plugin);
    match outcome
    case Abort(step, error) =>
      s := DriverFailed(step, error);
    case Ready(driverName, handler) =>
      var election := PlanLeaderElection(config.leaderElection, config.leaderElectionType,
                                         config.leaderElectionNamespace, driverName);
      s := Started(driverName, handler, election);
  }

  /**
   * In dummy mode with leader election on, the lock is named after the dummy
   * driver and no call reaches a driver.
   */
  lemma DummyLockName(config: Config, plugin: Plugin, s: Startup, calls: seq<Call>)
    requires config.dummy
    requires Bootstraps(config.dummy, plugin, Selection(s), calls)
    requires s.Started? && s.election == PlanLeaderElection(config.leaderElection, config.leaderElectionType,
                                                            config.leaderElectionNamespace, s.driverName)
    requires s.election.Elect?
    ensures calls == [] && s.handler == Trivial
    ensures s.election.lockName == "external-attacher-leader-csi/dummy"
  {
  }
}
