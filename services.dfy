/** The cloud-service manager: six service probes run side by side, one status
    flag per service, and an overall "connected" flag. The probes themselves
    (timed stubs) are not modelled; how each probe's promise settled is the input. */
module AzureServices {

  /** How one probe's promise settled: fulfilled with the boolean the probe
      returned, or rejected. */
  datatype Settled = Fulfilled(value: bool) | Rejected

  /** One flag per service, in the order the probes are started. */
  datatype ServiceStatus = ServiceStatus(
    speech: bool,
    functions: bool,
    cosmosDB: bool,
    machineLearning: bool,
    iotEdge: bool,
    storage: bool)

  /** Number of probes (and of flags). */
  const ServiceCount: nat := 6

  const AllDown := ServiceStatus(false, false, false, false, false, false)

  /** True when at least one service is up (`Object.values(...).some(...)`). */
  function AnyUp(s: ServiceStatus): bool
  {
    s.speech || s.functions || s.cosmosDB || s.machineLearning || s.iotEdge || s.storage
  }

  /** Flag `i` in probe order. */
  function Flag(s: ServiceStatus, i: nat): bool
    requires i < ServiceCount
  {
    match i
    case 0 => s.speech
    case 1 => s.functions
    case 2 => s.cosmosDB
    case 3 => s.machineLearning
    case 4 => s.iotEdge
    case _ => s.storage
  }

  /** The flags as the manager records them: a service is up when its probe's
      promise was fulfilled, whatever boolean the probe returned. */
  function FlagsAsWritten(outcomes: seq<Settled>): (s: ServiceStatus)
    requires |outcomes| == ServiceCount
    ensures forall i :: 0 <= i < ServiceCount ==> (Flag(s, i) <==> outcomes[i].Fulfilled?)
  {
    ServiceStatus(outcomes[0].Fulfilled?, outcomes[1].Fulfilled?, outcomes[2].Fulfilled?,
                  outcomes[3].Fulfilled?, outcomes[4].Fulfilled?, outcomes[5].Fulfilled?)
  }

  /** The flags the probes' comments describe: a service is up when its probe
      completed and reported success. */
  function FlagsAsReported(outcomes: seq<Settled>): (s: ServiceStatus)
    requires |outcomes| == ServiceCount
    ensures forall i :: 0 <= i < ServiceCount ==> (Flag(s, i) <==> outcomes[i] == Fulfilled(true))
  {
    ServiceStatus(outcomes[0] == Fulfilled(true), outcomes[1] == Fulfilled(true),
                  outcomes[2] == Fulfilled(true), outcomes[3] == Fulfilled(true),
                  outcomes[4] == Fulfilled(true), outcomes[5] == Fulfilled(true))
  }

  /** The manager is connected exactly when some probe's promise was fulfilled. */
  lemma ConnectedIffSomeFulfilled(outcomes: seq<Settled>)
    requires |outcomes| == ServiceCount
    ensures AnyUp(FlagsAsWritten(outcomes)) <==>
      exists i :: 0 <= i < ServiceCount && outcomes[i].Fulfilled?
  {
  }

  /** With the corrected flags, connected means some probe reported success. */
  lemma ReportedConnectedIffSomeSucceeded(outcomes: seq<Settled>)
    requires |outcomes| == ServiceCount
    ensures AnyUp(FlagsAsReported(outcomes)) <==>
      exists i :: 0 <= i < ServiceCount && outcomes[i] == Fulfilled(true)
  {
  }

  /** As written, a probe that fails (resolves to false) still marks its service
      up: six failed probes leave every flag set and the manager connected. */
  lemma FailedProbesCountAsUp()
    ensures var failed := [Fulfilled(false), Fulfilled(false), Fulfilled(false),
                           Fulfilled(false), Fulfilled(false), Fulfilled(false)];
      FlagsAsWritten(failed) == ServiceStatus(true, true, true, true, true, true) &&
      FlagsAsReported(failed) == AllDown
  {
  }

  /** The probes never reject, so as written every flag is always set. */
  lemma ProbesThatNeverRejectAreAlwaysUp(outcomes: seq<Settled>)
    requires |outcomes| == ServiceCount
    requires forall i :: 0 <= i < ServiceCount ==> outcomes[i].Fulfilled?
    ensures FlagsAsWritten(outcomes) == ServiceStatus(true, true, true, true, true, true)
  {
  }

  /** The corrected flags never claim more than the recorded ones. */
  lemma ReportedImpliesWritten(outcomes: seq<Settled>, i: nat)
    requires |outcomes| == ServiceCount && i < ServiceCount
    ensures Flag(FlagsAsReported(outcomes), i) ==> Flag(FlagsAsWritten(outcomes), i)
  {
  }

  class AzureServiceManager {
    var isConnected: bool
    var services: ServiceStatus

    constructor()
      ensures !isConnected && services == AllDown
    {
      isConnected := false;
      services := AllDown;
    }

    /** Records the six settled probe outcomes one flag at a time, then the
        connected flag, and returns the latter. */
    method Initialize(outcomes: seq<Settled>) returns (connected: bool)
      requires |outcomes| == ServiceCount
      modifies this
      ensures services == FlagsAsWritten(outcomes)
      ensures isConnected == AnyUp(services) && connected == isConnected
    {
      services := services.(speech := outcomes[0].Fulfilled?);
      services := services.(functions := outcomes[1].Fulfilled?);
      services := services.(cosmosDB := outcomes[2].Fulfilled?);
      services := services.(machineLearning := outcomes[3].Fulfilled?);
      services := services.(iotEdge := outcomes[4].Fulfilled?);
      services := services.(storage := outcomes[5].Fulfilled?);
      isConnected := AnyUp(services);
      connected := isConnected;
    }

    /** The same, recording for each service whether its probe reported success. */
    method InitializeReported(outcomes: seq<Settled>) returns (connected: bool)
      requires |outcomes| == ServiceCount
      modifies this
      ensures services == FlagsAsReported(outcomes)
      ensures isConnected == AnyUp(services) && connected == isConnected
    {
      services := services.(speech := outcomes[0] == Fulfilled(true));
      services := services.(functions := outcomes[1] == Fulfilled(true));
      services := services.(cosmosDB := outcomes[2] == Fulfilled(true));
      services := services.(machineLearning := outcomes[3] == Fulfilled(true));
      services := services.(iotEdge := outcomes[4] == Fulfilled(true));
      services := services.(storage := outcomes[5] == Fulfilled(true));
      isConnected := AnyUp(services);
      connected := isConnected;
    }

    /** The current flags. */
    method GetServiceStatus() returns (s: ServiceStatus)
      ensures s == services
    {
      s := services;
    }
  }
}
