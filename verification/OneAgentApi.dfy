/** The OneAgent custom resource, as far as the reconcilers read or write it. */
module OneAgentApi {
  import opened Common

  /** Instants and durations in whole seconds, the granularity in which the API server keeps metav1.Time. */
  type Time = int
  const MINUTE: int := 60
  const ZERO_TIME: Time := 0

  datatype Phase = NoPhase | Running | Deploying | Error

  datatype ConditionStatus = ConditionTrue | ConditionFalse | ConditionUnknown

  datatype Condition = Condition(
    kind: string,
    status: ConditionStatus,
    reason: string,
    message: string,
    lastTransitionTime: Time)

  datatype OneAgentInstance = OneAgentInstance(podName: string, version: string, ipAddress: string)

  /** The status subresource without its UpdatedTimestamp, which every write refreshes. */
  datatype OneAgentStatus = OneAgentStatus(
    conditions: seq<Condition>,
    lastAPITokenProbe: Option<Time>,
    lastPaaSTokenProbe: Option<Time>,
    environmentID: string,
    tokens: string,
    useImmutableImage: bool,
    version: string,
    instances: Option<map<string, OneAgentInstance>>,
    phase: Phase,
    lastUpdateProbe: Option<Time>,
    imageHash: string,
    imageVersion: string,
    lastImageVersionProbe: Option<Time>)

  datatype OneAgentSpec = OneAgentSpec(
    apiURL: string,
    enableIstio: bool,
    useImmutableImage: bool,
    image: string,
    agentVersion: string,
    disableAgentUpdate: bool,
    waitReadySeconds: Option<uint16>)

  /** A OneAgent object while it is being reconciled, together with the writes of its status subresource. */
  class OneAgent {
    const name: string
    const spec: OneAgentSpec
    var status: OneAgentStatus
    /** Every status handed to the API server, in order. */
    var submitted: seq<OneAgentStatus>
    /** Which of those writes the API server accepts. */
    const accepts: nat -> bool

    constructor (name: string, spec: OneAgentSpec, status: OneAgentStatus, accepts: nat -> bool)
      ensures this.name == name && this.spec == spec && this.status == status
      ensures this.accepts == accepts && submitted == []
    {
      this.name, this.spec, this.status, this.accepts := name, spec, status, accepts;
      submitted := [];
    }

    method SetPhase(phase: Phase) returns (changed: bool)
      modifies this`status
      ensures status == old(status).(phase := phase) && changed == (status != old(status))
    {
      changed := phase != status.phase;
      status := status.(phase := phase);
    }

    method UpdateCR() returns (ok: bool)
      modifies this`submitted
      ensures submitted == old(submitted) + [status] && ok == accepts(|old(submitted)|)
    {
      ok := accepts(|submitted|);
      submitted := submitted + [status];
    }
  }
}
