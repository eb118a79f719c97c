/** One reconcile pass over a OneAgent: its stages, the record of what they changed, and the final status write. */
module OneAgentController {
  import opened Common
  import opened OneAgentApi
  import opened RollingRestart
  import opened AgentUpdate
  import Images = ImageVersions
  import Text
  import Tokens = TokenReconciler

  const DEFAULT_UPDATE_INTERVAL: int := 15 * MINUTE

  /** An error of a stage; only HTTP 429 of the Dynatrace API is told apart. */
  datatype PassError = TooManyRequests | OtherError

  // ---------- instance statuses ----------

  datatype InstancesEnd = InstancesEnd(instances: map<string, OneAgentInstance>, limited: bool)

  /** An unknown version is carried over from the last known instance on the node. */
  function InstanceFor(pod: Pod, answer: VersionAnswer, known: map<string, OneAgentInstance>): OneAgentInstance {
    OneAgentInstance(pod.name,
                     if answer.Reported? then answer.version
                     else if pod.nodeName in known then known[pod.nodeName].version else "",
                     pod.hostIP)
  }

  /** The instances after the given pods on top of those already collected; a rate limit ends the collection. */
  function CollectInstances(pods: seq<Pod>, answers: seq<VersionAnswer>, known: map<string, OneAgentInstance>,
                            collected: map<string, OneAgentInstance>): InstancesEnd
    requires |pods| == |answers|
  {
    if pods == [] then InstancesEnd(collected, false)
    else if answers[0].RateLimited? then InstancesEnd(collected, true)
    else CollectInstances(pods[1..], answers[1..], known,
        collected[pods[0].nodeName := InstanceFor(pods[0], answers[0], known)])
  }

  function KnownInstances(s: OneAgentStatus): map<string, OneAgentInstance> {
    if s.instances.Some? then s.instances.value else map[]
  }

  method GetInstanceStatuses(
      pods: seq<Pod>, answers: seq<VersionAnswer>, known: map<string, OneAgentInstance>) returns (end: InstancesEnd)
    requires |pods| == |answers|
    ensures end == CollectInstances(pods, answers, known, map[])
  {
    var instanceStatuses: map<string, OneAgentInstance> := map[];
    assert pods[0..] == pods && answers[0..] == answers;
    for i := 0 to |pods|
      invariant CollectInstances(pods, answers, known, map[])
        == CollectInstances(pods[i..], answers[i..], known, instanceStatuses)
    {
      assert pods[i..][1..] == pods[i + 1..] && answers[i..][1..] == answers[i + 1..];
      var pod := pods[i];
      var status := OneAgentInstance(pod.name, "", pod.hostIP);
      match answers[i]
      case RateLimited =>
        return InstancesEnd(instanceStatuses, true);
      case Unavailable =>
        if pod.nodeName in known {
          status := status.(version := known[pod.nodeName].version);
        }
        instanceStatuses := instanceStatuses[pod.nodeName := status];
      case Reported(ver) =>
        status := status.(version := ver);
        instanceStatuses := instanceStatuses[pod.nodeName := status];
    }
    return InstancesEnd(instanceStatuses, false);
  }

  // ---------- what a pass sees ----------

  datatype IstioAnswer = IstioFailed | IstioUpdated | IstioSettled

  datatype DaemonSetAnswer = DaemonSetMissing | DaemonSetUnreadable | DaemonSet(ready: int, scheduled: int)

  /** Reading the OneAgent at the start of a pass. */
  datatype ObjectAnswer = ObjectRead | ObjectGone | ObjectUnreadable

  /** Generating and writing the pull secret, for which the Dynatrace API is asked about the connection. */
  datatype PullSecretAnswer = PullSecretWritten | PullSecretLimited | PullSecretFailed {
    function Error(): Option<PassError> {
      match this
      case PullSecretWritten => None
      case PullSecretLimited => Some(TooManyRequests)
      case PullSecretFailed => Some(OtherError)
    }
  }

  datatype PassInputs = PassInputs(
    request: ObjectAnswer,
    tokens: Tokens.TokenInputs,
    istio: IstioAnswer,
    image: Images.ImageInputs,
    pullSecret: PullSecretAnswer,
    /** Whether the cluster ID could be read and the DaemonSet built, read, and created or updated as needed. */
    daemonSetWritten: bool,
    /** The latest version as the rollout stage is told. */
    latest: LatestAnswer,
    tokensName: string,
    now: Time,
    /** The value of ONEAGENT_OPERATOR_UPDATE_INTERVAL. */
    updateInterval: string,
    /** The pods for the instance statuses; None when listing them failed. */
    pods: Option<seq<Pod>>,
    answers: seq<VersionAnswer>,
    update: UpdateInputs,
    daemonSet: DaemonSetAnswer)
  {
    predicate Valid() {
      update.Valid() && (pods.Some? ==> |pods.value| == |answers|)
    }

    function Interval(): int {
      var parsed := Text.Atoi(updateInterval);
      if updateInterval != "" && parsed.Some? then parsed.value * MINUTE else DEFAULT_UPDATE_INTERVAL
    }
  }

  // ---------- the record of a pass ----------

  datatype Progress = Going | Returned | Panicked

  /** The status so far with the writes made on the way, and the reconciliation record. */
  datatype Rec = Rec(
    status: OneAgentStatus,
    submitted: seq<OneAgentStatus>,
    update: bool,
    error: Option<PassError>,
    requeueAfter: int,
    progress: Progress)
  {
    /** rec.Update: flag a change; no change leaves the record alone. */
    function Update(changed: bool): Rec {
      if changed then this.(update := true, requeueAfter := 5 * MINUTE) else this
    }

    /** rec.Error followed by a return. */
    function Fail(e: PassError): Rec {
      this.(error := Some(e), progress := Returned)
    }

    function Return(): Rec {
      this.(progress := Returned)
    }
  }

  function TokenPart(spec: OneAgentSpec, r: Rec, inputs: PassInputs): Rec {
    if spec.apiURL == "" then r.Fail(OtherError)
    else
      var end := Tokens.TokenStage([Tokens.PaaSToken, Tokens.APIToken], r.status, inputs.tokens);
      var r1 := r.(status := end.status).Update(end.update);
      if end.error.Some? then r1.Fail(OtherError) else r1
  }

  /** Istio errors are only logged; Istio changes end the pass early. */
  function IstioPart(spec: OneAgentSpec, r: Rec, inputs: PassInputs): Rec {
    if spec.enableIstio && inputs.istio.IstioUpdated? then r.(requeueAfter := 30, progress := Returned) else r
  }

  /** An error of the image stage is recorded without ending the pass. */
  function ImagePart(spec: OneAgentSpec, r: Rec, inputs: PassInputs): Rec {
    var r1 := r.(status := r.status.(useImmutableImage := spec.useImmutableImage))
               .Update(spec.useImmutableImage != r.status.useImmutableImage);
    var end := Images.ImageStage(spec, r1.status, inputs.image);
    var r2 := r1.(status := end.status);
    if end.panicked then r2.(progress := Panicked)
    else
      var r3 := r2.Update(end.update);
      var r4 := if end.failed then r3.(error := Some(OtherError)) else r3;
      if r4.status.useImmutableImage && spec.image == "" && inputs.pullSecret.Error().Some? then
        r4.Fail(inputs.pullSecret.Error().value)
      else r4
  }

  datatype RolloutEnd = RolloutEnd(status: OneAgentStatus, update: bool, error: Option<PassError>)

  function RolloutStage(spec: OneAgentSpec, s: OneAgentStatus, inputs: PassInputs): RolloutEnd {
    if !inputs.daemonSetWritten then RolloutEnd(s, false, Some(OtherError))
    else
      var pinned := s.useImmutableImage && spec.image == "" && spec.agentVersion != "";
      if s.version == "" && !pinned && !inputs.latest.Latest? then
        RolloutEnd(s, false, Some(if inputs.latest.TooMany? then TooManyRequests else OtherError))
      else
        var s1 := if s.version != "" then s
                  else s.(version := if pinned then spec.agentVersion else inputs.latest.version, phase := Deploying);
        RolloutEnd(s1.(tokens := inputs.tokensName), s.version == "" || s.tokens != inputs.tokensName, None)
  }

  function RolloutPart(spec: OneAgentSpec, r: Rec, inputs: PassInputs): Rec {
    var end := RolloutStage(spec, r.status, inputs);
    var r1 := r.(status := end.status);
    if end.error.Some? then r1.Fail(end.error.value)
    else if end.update then r1.Update(true).Return()
    else r1
  }

  predicate UpdateProbeDue(s: OneAgentStatus, inputs: PassInputs) {
    s.lastUpdateProbe.Some? ==> s.lastUpdateProbe.value + inputs.Interval() < inputs.now
  }

  datatype StatusesEnd = StatusesEnd(status: OneAgentStatus, update: bool, limited: bool)

  /** A failed List counts as no pods at all; a rate limit keeps what was collected so far, unless that is nothing. */
  function StatusesStage(s: OneAgentStatus, inputs: PassInputs): StatusesEnd
    requires inputs.Valid()
  {
    var end := if inputs.pods.None? then InstancesEnd(map[], false)
               else CollectInstances(inputs.pods.value, inputs.answers, KnownInstances(s), map[]);
    if end.limited && end.instances == map[] then StatusesEnd(s, false, true)
    else if s.instances != Some(end.instances) then StatusesEnd(s.(instances := Some(end.instances)), true, end.limited)
    else StatusesEnd(s, false, end.limited)
  }

  function AsPassError(e: StageError): PassError {
    match e
    case LatestUnknown(limited) => if limited then TooManyRequests else OtherError
    case VersionsRateLimited => TooManyRequests
    case _ => OtherError
  }

  function StatusesPart(r: Rec, inputs: PassInputs): Rec
    requires inputs.Valid()
  {
    var end := StatusesStage(r.status, inputs);
    var r1 := r.(status := end.status);
    if end.limited then r1.Fail(TooManyRequests)
    else if end.update then r1.Update(true).Return()
    else r1
  }

  function VersionPart(spec: OneAgentSpec, r: Rec, inputs: PassInputs): Rec
    requires inputs.Valid()
  {
    if spec.disableAgentUpdate then r.Return()
    else if r.status.useImmutableImage then r
    else
      var end := UpdateStage(spec, r.status, inputs.update);
      var r1 := r.(status := end.status, submitted := r.submitted + end.submitted);
      if end.panicked then r1.(progress := Panicked)
      else if end.error.Some? then r1.Fail(AsPassError(end.error.value))
      else if end.update then r1.Update(true).Return()
      else r1
  }

  function ProbePart(spec: OneAgentSpec, r: Rec, inputs: PassInputs): Rec
    requires inputs.Valid()
  {
    if !UpdateProbeDue(r.status, inputs) then r
    else
      var r1 := r.(status := r.status.(lastUpdateProbe := Some(inputs.now))).Update(true);
      var r2 := StatusesPart(r1, inputs);
      if !r2.progress.Going? then r2 else VersionPart(spec, r2, inputs)
  }

  /** Everything before the update probes. */
  function Preparation(spec: OneAgentSpec, s: OneAgentStatus, inputs: PassInputs): Rec {
    var r1 := TokenPart(spec, Rec(s, [], false, None, 30 * MINUTE, Going), inputs);
    if !r1.progress.Going? then r1
    else
      var r2 := IstioPart(spec, r1, inputs);
      if !r2.progress.Going? then r2
      else
        var r3 := ImagePart(spec, r2, inputs);
        if !r3.progress.Going? then r3 else RolloutPart(spec, r3, inputs)
  }

  /** Everything before the phase is determined. */
  function Stages(spec: OneAgentSpec, s: OneAgentStatus, inputs: PassInputs): Rec
    requires inputs.Valid()
  {
    var r := Preparation(spec, s, inputs);
    if !r.progress.Going? then r else ProbePart(spec, r, inputs)
  }

  /**
   * A change of phase is flagged only when the DaemonSet could be read; otherwise the phase becomes Error unflagged.
   */
  function PhasePart(r: Rec, inputs: PassInputs): Rec {
    match inputs.daemonSet
    case DaemonSetMissing => r
    case DaemonSetUnreadable => r.(status := r.status.(phase := Error), error := Some(OtherError))
    case DaemonSet(ready, scheduled) =>
      var phase := if ready == scheduled then Running else Deploying;
      r.(status := r.status.(phase := phase)).Update(r.status.phase != phase)
  }

  function Impl(spec: OneAgentSpec, s: OneAgentStatus, inputs: PassInputs): Rec
    requires inputs.Valid()
  {
    var r := Stages(spec, s, inputs);
    if r.progress.Going? then PhasePart(r, inputs) else r
  }

  /** What the caller of Reconcile learns: nothing to do any more, when to come back, an error, or a panic. */
  datatype PassResult = Done | Requeue(after: int) | PassFailed | Crashed

  datatype PassEnd = PassEnd(status: OneAgentStatus, submitted: seq<OneAgentStatus>, result: PassResult)

  /** The end of a pass that did not panic: an error without any flagged change turns the phase to Error. */
  function Finish(r: Rec, accepts: nat -> bool, from: nat): PassEnd {
    var final := if r.error.Some? && !r.update then r.status.(phase := Error) else r.status;
    var write := r.update || final != r.status;
    PassEnd(final,
            if write then r.submitted + [final] else r.submitted,
            if write && !accepts(from + |r.submitted|) then PassFailed
            else if r.error == Some(TooManyRequests) then Requeue(MINUTE)
            else if r.error.Some? then PassFailed
            else Requeue(r.requeueAfter))
  }

  /** A whole pass; from is the number of status writes before it. */
  function Pass(spec: OneAgentSpec, s: OneAgentStatus, inputs: PassInputs, accepts: nat -> bool, from: nat): PassEnd
    requires inputs.Valid()
  {
    match inputs.request
    case ObjectGone => PassEnd(s, [], Done)
    case ObjectUnreadable => PassEnd(s, [], PassFailed)
    case ObjectRead =>
      var r := Impl(spec, s, inputs);
      if r.progress.Panicked? then PassEnd(r.status, r.submitted, Crashed) else Finish(r, accepts, from)
  }

  // ---------- the class ----------

  /** rec, the record the stages write to. */
  class Reconciliation {
    var update: bool
    var error: Option<PassError>
    var requeueAfter: int

    constructor (requeueAfter: int)
      ensures !update && error == None && this.requeueAfter == requeueAfter
    {
      update, error, this.requeueAfter := false, None, requeueAfter;
    }

    method Error(e: Option<PassError>) returns (failed: bool)
      modifies this`error
      ensures failed == e.Some? && error == if failed then e else old(error)
    {
      if e.None? {
        return false;
      }
      error := e;
      return true;
    }

    method Update(upd: bool, after: int) returns (updated: bool)
      modifies this`update, this`requeueAfter
      ensures updated == upd
      ensures if upd then update && requeueAfter == after
              else update == old(update) && requeueAfter == old(requeueAfter)
    {
      if !upd {
        return false;
      }
      update := true;
      requeueAfter := after;
      return true;
    }
  }

  class ReconcileOneAgent {
    const dtcReconciler: Tokens.DynatraceClientReconciler
    const cluster: Cluster

    constructor (dtcReconciler: Tokens.DynatraceClientReconciler, cluster: Cluster)
      ensures this.dtcReconciler == dtcReconciler && this.cluster == cluster
    {
      this.dtcReconciler, this.cluster := dtcReconciler, cluster;
    }

    ghost predicate Valid(inputs: PassInputs)
      reads dtcReconciler, cluster
    {
      && inputs.Valid() && dtcReconciler.updatePaaSToken && dtcReconciler.updateAPIToken
      && cluster.polls == inputs.update.polls && cluster.protected == inputs.update.protected
    }

    /** The record as a value. */
    ghost function Current(oa: OneAgent, rec: Reconciliation, submittedBefore: nat, progress: Progress): Rec
      requires submittedBefore <= |oa.submitted|
      reads oa, rec
    {
      Rec(oa.status, oa.submitted[submittedBefore..], rec.update, rec.error, rec.requeueAfter, progress)
    }

    method ReconcileRollout(oa: OneAgent, inputs: PassInputs) returns (update: bool, error: Option<PassError>)
      modifies oa`status
      ensures RolloutEnd(oa.status, update, error) == RolloutStage(oa.spec, old(oa.status), inputs)
    {
      update := false;
      if !inputs.daemonSetWritten {
        return false, Some(OtherError);
      }
      if oa.status.version == "" {
        var version := oa.spec.agentVersion;
        if !(oa.status.useImmutableImage && oa.spec.image == "") || version == "" {
          if !inputs.latest.Latest? {
            return false, Some(if inputs.latest.TooMany? then TooManyRequests else OtherError);
          }
          version := inputs.latest.version;
        }
        oa.status := oa.status.(version := version);
        var _ := oa.SetPhase(Deploying);
        update := true;
      }
      if oa.status.tokens != inputs.tokensName {
        oa.status := oa.status.(tokens := inputs.tokensName);
        update := true;
      }
      return update, None;
    }

    method ReconcileInstanceStatuses(oa: OneAgent, inputs: PassInputs) returns (update: bool, limited: bool)
      requires inputs.Valid()
      modifies oa`status
      ensures StatusesEnd(oa.status, update, limited) == StatusesStage(old(oa.status), inputs)
    {
      var pods, answers := [], [];
      if inputs.pods.Some? {
        pods, answers := inputs.pods.value, inputs.answers;
      }
      var end := GetInstanceStatuses(pods, answers, KnownInstances(oa.status));
      if end.limited {
        if |end.instances| == 0 {
          assert end.instances == map[];
          return false, true;
        }
      }
      if oa.status.instances.None? || oa.status.instances.value != end.instances {
        oa.status := oa.status.(instances := Some(end.instances));
        return true, end.limited;
      }
      return false, end.limited;
    }

    method DetermineOneAgentPhase(oa: OneAgent, inputs: PassInputs) returns (changed: bool, error: Option<PassError>)
      modifies oa`status
      ensures changed == (oa.status.phase != old(oa.status).phase)
      ensures error == if inputs.daemonSet.DaemonSetUnreadable? then Some(OtherError) else None
      ensures oa.status == old(oa.status).(phase :=
                match inputs.daemonSet
                case DaemonSetMissing => old(oa.status).phase
                case DaemonSetUnreadable => Phase.Error
                case DaemonSet(ready, scheduled) => if ready == scheduled then Running else Deploying)
    {
      match inputs.daemonSet
      case DaemonSetMissing =>
        return false, None;
      case DaemonSetUnreadable =>
        changed := oa.status.phase != Phase.Error;
        oa.status := oa.status.(phase := Phase.Error);
        return changed, Some(OtherError);
      case DaemonSet(ready, scheduled) =>
        var phase := if ready == scheduled then Running else Deploying;
        changed := oa.status.phase != phase;
        oa.status := oa.status.(phase := phase);
        return changed, None;
    }

    method ReconcileVersion(
        oa: OneAgent, inputs: PassInputs) returns (update: bool, error: Option<PassError>, panicked: bool)
      requires Valid(inputs)
      modifies oa`status, oa`submitted, cluster
      ensures if old(oa.status).useImmutableImage
              then oa.status == old(oa.status) && oa.submitted == old(oa.submitted) && !update && error == None
                  && !panicked
              else var end := UpdateStage(oa.spec, old(oa.status), inputs.update);
                   && oa.status == end.status && oa.submitted == old(oa.submitted) + end.submitted
                   && update == end.update && panicked == end.panicked
                   && error == (if end.error.Some? then Some(AsPassError(end.error.value)) else None)
    {
      if oa.status.useImmutableImage {
        return false, None, false;
      }
      var stageError;
      update, stageError, panicked := ReconcileVersionInstaller(oa, inputs.update, cluster);
      error := if stageError.Some? then Some(AsPassError(stageError.value)) else None;
    }

    /** The part of a pass about the instances. */
    method ReconcileInstances(oa: OneAgent, rec: Reconciliation, inputs: PassInputs) returns (progress: Progress)
      requires inputs.Valid()
      modifies oa`status, rec
      ensures Current(oa, rec, |oa.submitted|, progress) ==
              StatusesPart(old(Current(oa, rec, |oa.submitted|, Going)), inputs)
    {
      var upd, limited := ReconcileInstanceStatuses(oa, inputs);
      var failed := rec.Error(if limited then Some(TooManyRequests) else None);
      if failed {
        return Returned;
      }
      var updated := rec.Update(upd, 5 * MINUTE);
      return if updated then Returned else Going;
    }

    /** The part of a pass about outdated agents. */
    method ReconcileVersions(oa: OneAgent, rec: Reconciliation, inputs: PassInputs) returns (progress: Progress)
      requires Valid(inputs) && (rec as object) != cluster
      modifies oa`status, oa`submitted, rec, cluster
      ensures old(oa.submitted) <= oa.submitted
      ensures Current(oa, rec, |old(oa.submitted)|, progress) ==
              VersionPart(oa.spec, old(Current(oa, rec, |oa.submitted|, Going)), inputs)
    {
      if oa.spec.disableAgentUpdate {
        return Returned;
      }
      var upd, error, panicked := ReconcileVersion(oa, inputs);
      if panicked {
        return Panicked;
      }
      var failed := rec.Error(error);
      if failed {
        return Returned;
      }
      var updated := rec.Update(upd, 5 * MINUTE);
      return if updated then Returned else Going;
    }

    /** The part of a pass that probes for updates, at most once per interval. */
    method ReconcileUpdates(oa: OneAgent, rec: Reconciliation, inputs: PassInputs) returns (progress: Progress)
      requires Valid(inputs) && (rec as object) != cluster
      modifies oa`status, oa`submitted, rec, cluster
      ensures old(oa.submitted) <= oa.submitted
      ensures Current(oa, rec, |old(oa.submitted)|, progress) ==
              ProbePart(oa.spec, old(Current(oa, rec, |oa.submitted|, Going)), inputs)
    {
      var last := oa.status.lastUpdateProbe;
      if !(last.None? || last.value + inputs.Interval() < inputs.now) {
        return Going;
      }
      oa.status := oa.status.(lastUpdateProbe := Some(inputs.now));
      var _ := rec.Update(true, 5 * MINUTE);
      progress := ReconcileInstances(oa, rec, inputs);
      if !progress.Going? {
        return;
      }
      progress := ReconcileVersions(oa, rec, inputs);
    }

    /** The part of a pass about the image. */
    method ReconcileImage(oa: OneAgent, rec: Reconciliation, inputs: PassInputs) returns (progress: Progress)
      modifies oa`status, rec
      ensures Current(oa, rec, |old(oa.submitted)|, progress) ==
              ImagePart(oa.spec, old(Current(oa, rec, |oa.submitted|, Going)), inputs)
    {
      var upd := oa.spec.useImmutableImage != oa.status.useImmutableImage;
      oa.status := oa.status.(useImmutableImage := oa.spec.useImmutableImage);
      var _ := rec.Update(upd, 5 * MINUTE);
      var failed, panicked;
      upd, failed, panicked := Images.ReconcileImageVersion(oa, inputs.image);
      if panicked {
        return Panicked;
      }
      var _ := rec.Update(upd, 5 * MINUTE);
      var _ := rec.Error(if failed then Some(OtherError) else None);
      if oa.status.useImmutableImage && oa.spec.image == "" {
        failed := rec.Error(inputs.pullSecret.Error());
        if failed {
          return Returned;
        }
      }
      return Going;
    }

    /** The part of a pass about the DaemonSet. */
    method ReconcileDaemonSet(oa: OneAgent, rec: Reconciliation, inputs: PassInputs) returns (progress: Progress)
      modifies oa`status, rec
      ensures Current(oa, rec, |old(oa.submitted)|, progress) ==
              RolloutPart(oa.spec, old(Current(oa, rec, |oa.submitted|, Going)), inputs)
    {
      var upd, error := ReconcileRollout(oa, inputs);
      var failed := rec.Error(error);
      if failed {
        return Returned;
      }
      var updated := rec.Update(upd, 5 * MINUTE);
      if updated {
        return Returned;
      }
      return Going;
    }

    /** The part of a pass about the custom resource and its tokens. */
    method ReconcileTokens(oa: OneAgent, rec: Reconciliation, inputs: PassInputs) returns (progress: Progress)
      requires Valid(inputs) && (rec as object) != dtcReconciler
      modifies oa`status, rec, dtcReconciler`requests
      ensures Current(oa, rec, |oa.submitted|, progress) ==
              TokenPart(oa.spec, old(Current(oa, rec, |oa.submitted|, Going)), inputs)
    {
      if oa.spec.apiURL == "" {
        var _ := rec.Error(Some(OtherError));
        return Returned;
      }
      assert dtcReconciler.Tokens() == [Tokens.PaaSToken, Tokens.APIToken];
      var upd, tokenError := dtcReconciler.Reconcile(oa, inputs.tokens);
      var _ := rec.Update(upd, 5 * MINUTE);
      var failed := rec.Error(if tokenError.Some? then Some(OtherError) else None);
      return if failed then Returned else Going;
    }

    /** Everything before the update probes. */
    method Prepare(oa: OneAgent, rec: Reconciliation, inputs: PassInputs) returns (progress: Progress)
      requires Valid(inputs) && (rec as object) != dtcReconciler
      requires !rec.update && rec.error == None && rec.requeueAfter == 30 * MINUTE
      modifies oa`status, rec, dtcReconciler`requests
      ensures Current(oa, rec, |oa.submitted|, progress) == Preparation(oa.spec, old(oa.status), inputs)
    {
      progress := ReconcileTokens(oa, rec, inputs);
      if !progress.Going? {
        return;
      }
      if oa.spec.enableIstio {
        if inputs.istio.IstioUpdated? {
          rec.requeueAfter := 30;
          return Returned;
        }
      }
      progress := ReconcileImage(oa, rec, inputs);
      if !progress.Going? {
        return;
      }
      progress := ReconcileDaemonSet(oa, rec, inputs);
    }

    method ReconcileImpl(oa: OneAgent, rec: Reconciliation, inputs: PassInputs) returns (progress: Progress)
      requires Valid(inputs)
      requires (rec as object) != cluster && (rec as object) != dtcReconciler && (dtcReconciler as object) != cluster
      requires !rec.update && rec.error == None && rec.requeueAfter == 30 * MINUTE
      modifies oa`status, oa`submitted, rec, cluster, dtcReconciler`requests
      ensures old(oa.submitted) <= oa.submitted
      ensures Current(oa, rec, |old(oa.submitted)|, progress) == Impl(oa.spec, old(oa.status), inputs)
    {
      progress := Prepare(oa, rec, inputs);
      if !progress.Going? {
        return;
      }
      progress := ReconcileUpdates(oa, rec, inputs);
      if !progress.Going? {
        return;
      }
      var changed, error := DetermineOneAgentPhase(oa, inputs);
      var failed := rec.Error(error);
      if !failed {
        var _ := rec.Update(changed, 5 * MINUTE);
      }
    }

    /** Write the status if anything was flagged, or if the error turned the phase. */
    method FinishPass(oa: OneAgent, rec: Reconciliation, ghost from: nat, ghost r: Rec) returns (result: PassResult)
      requires from <= |oa.submitted| && r == Current(oa, rec, from, r.progress)
      modifies oa`status, oa`submitted
      ensures old(oa.submitted) <= oa.submitted
      ensures PassEnd(oa.status, oa.submitted[from..], result) == Finish(r, oa.accepts, from)
    {
      if rec.error.Some? {
        var write := rec.update;
        if !write {
          write := oa.SetPhase(Phase.Error);
        }
        if write {
          var ok := oa.UpdateCR();
          if !ok {
            return PassFailed;
          }
        }
        if rec.error == Some(TooManyRequests) {
          return Requeue(MINUTE);
        }
        return PassFailed;
      }
      if rec.update {
        var ok := oa.UpdateCR();
        if !ok {
          return PassFailed;
        }
      }
      return Requeue(rec.requeueAfter);
    }

    method Reconcile(oa: OneAgent, inputs: PassInputs) returns (result: PassResult)
      requires Valid(inputs) && (dtcReconciler as object) != cluster
      modifies oa`status, oa`submitted, cluster, dtcReconciler`requests
      ensures old(oa.submitted) <= oa.submitted
      ensures PassEnd(oa.status, oa.submitted[|old(oa.submitted)|..], result)
           == Pass(oa.spec, old(oa.status), inputs, oa.accepts, |old(oa.submitted)|)
    {
      match inputs.request {
        case ObjectGone => return Done;
        case ObjectUnreadable => return PassFailed;
        case ObjectRead =>
      }
      ghost var from := |oa.submitted|;
      ghost var r := Impl(oa.spec, oa.status, inputs);
      var rec := new Reconciliation(30 * MINUTE);
      var progress := ReconcileImpl(oa, rec, inputs);
      if progress.Panicked? {
        return Crashed;
      }
      result := FinishPass(oa, rec, from, r);
    }
  }
}
