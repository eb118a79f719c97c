/** What the stages of a OneAgent pass record, and when the pass comes back. */
module PassProperties {
  import opened Common
  import opened OneAgentApi
  import opened RollingRestart
  import opened AgentUpdate
  import opened OneAgentController
  import Text
  import Versions
  import Images = ImageVersions
  import Tokens = TokenReconciler
  import TokenProperties

  // ---------- the rollout ----------

  /** The image comes from the environment with a version fixed by the user. */
  predicate Pinned(spec: OneAgentSpec, s: OneAgentStatus) {
    s.useImmutableImage && spec.image == "" && spec.agentVersion != ""
  }

  /** The first rollout needs the latest version unless one is pinned. */
  predicate RolloutPossible(spec: OneAgentSpec, s: OneAgentStatus, inputs: PassInputs) {
    inputs.daemonSetWritten && (s.version == "" ==> Pinned(spec, s) || inputs.latest.Latest?)
  }

  /**
   * A rollout records the pinned version or else the latest one if none is recorded, turning the phase to Deploying,
   * and the tokens it used. It leaves a recorded version and its phase alone, and everything else in any case.
   */
  lemma RolloutRecords(spec: OneAgentSpec, s: OneAgentStatus, inputs: PassInputs)
    requires RolloutPossible(spec, s, inputs)
    ensures var end := RolloutStage(spec, s, inputs);
            && end.error.None?
            && end.status == s.(version := end.status.version, phase := end.status.phase, tokens := inputs.tokensName)
            && (s.version != "" ==> end.status.version == s.version && end.status.phase == s.phase)
            && (s.version == "" ==>
                  && end.status.phase == Deploying
                  && end.status.version == if Pinned(spec, s) then spec.agentVersion else inputs.latest.version)
            && (end.update <==> s.version == "" || s.tokens != inputs.tokensName)
  {
  }

  /** Otherwise it fails and leaves the status alone; only a rate limit of the Dynatrace API is told apart. */
  lemma RolloutFails(spec: OneAgentSpec, s: OneAgentStatus, inputs: PassInputs)
    requires !RolloutPossible(spec, s, inputs)
    ensures var end := RolloutStage(spec, s, inputs);
            && end.status == s && !end.update && end.error.Some?
            && (end.error.value == TooManyRequests <==> inputs.daemonSetWritten && inputs.latest.TooMany?)
  {
  }

  /** Once a version is recorded, rolling out again with the same tokens changes nothing, so that the pass goes on. */
  lemma NextRolloutQuiet(spec: OneAgentSpec, s: OneAgentStatus, inputs: PassInputs, next: PassInputs)
    requires RolloutPossible(spec, s, inputs) && next.daemonSetWritten && next.tokensName == inputs.tokensName
    requires RolloutStage(spec, s, inputs).status.version != ""
    ensures var s' := RolloutStage(spec, s, inputs).status;
            RolloutStage(spec, s', next) == RolloutEnd(s', false, None)
  {
    RolloutRecords(spec, s, inputs);
    RolloutRecords(spec, RolloutStage(spec, s, inputs).status, next);
  }

  // ---------- the instances ----------

  /** No later pod of the list is on the same node. */
  predicate LastOnNode(pods: seq<Pod>, i: nat) {
    i < |pods| && forall j :: i < j < |pods| ==> pods[j].nodeName != pods[i].nodeName
  }

  predicate NoLimit(answers: seq<VersionAnswer>) {
    forall i :: 0 <= i < |answers| ==> !answers[i].RateLimited?
  }

  /** An instance tells its pod, the address of its host, and the version reported, or else the one known before. */
  predicate Describes(e: OneAgentInstance, pod: Pod, answer: VersionAnswer, known: map<string, OneAgentInstance>) {
    && e.podName == pod.name && e.ipAddress == pod.hostIP
    && match answer
       case Reported(version) => e.version == version
       case _ => e.version == if pod.nodeName in known then known[pod.nodeName].version else ""
  }

  lemma {:induction false} CollectedKeeps(
      pods: seq<Pod>, answers: seq<VersionAnswer>, known: map<string, OneAgentInstance>,
      collected: map<string, OneAgentInstance>, node: string)
    requires |pods| == |answers| && NoLimit(answers) && forall i :: 0 <= i < |pods| ==> pods[i].nodeName != node
    ensures var end := CollectInstances(pods, answers, known, collected).instances;
            && (node in end <==> node in collected) && (node in end ==> end[node] == collected[node])
    decreases |pods|
  {
    if pods != [] {
      assert forall i :: 0 <= i < |answers| - 1 ==> answers[1..][i] == answers[i + 1];
      CollectedKeeps(pods[1..], answers[1..], known,
        collected[pods[0].nodeName := InstanceFor(pods[0], answers[0], known)], node);
    }
  }

  lemma {:induction false} CollectedLast(
      pods: seq<Pod>, answers: seq<VersionAnswer>, known: map<string, OneAgentInstance>,
      collected: map<string, OneAgentInstance>, i: nat)
    requires |pods| == |answers| && NoLimit(answers) && LastOnNode(pods, i)
    ensures var end := CollectInstances(pods, answers, known, collected);
            && !end.limited && pods[i].nodeName in end.instances
            && Describes(end.instances[pods[i].nodeName], pods[i], answers[i], known)
    decreases |pods|
  {
    var next := collected[pods[0].nodeName := InstanceFor(pods[0], answers[0], known)];
    assert forall j :: 0 <= j < |answers| - 1 ==> answers[1..][j] == answers[j + 1];
    CollectedNotLimited(pods[1..], answers[1..], known, next);
    if i == 0 {
      CollectedKeeps(pods[1..], answers[1..], known, next, pods[0].nodeName);
    } else {
      CollectedLast(pods[1..], answers[1..], known, next, i - 1);
    }
  }

  lemma {:induction false} CollectedNotLimited(
      pods: seq<Pod>, answers: seq<VersionAnswer>, known: map<string, OneAgentInstance>,
      collected: map<string, OneAgentInstance>)
    requires |pods| == |answers| && NoLimit(answers)
    ensures !CollectInstances(pods, answers, known, collected).limited
    decreases |pods|
  {
    if pods != [] {
      assert forall i :: 0 <= i < |answers| - 1 ==> answers[1..][i] == answers[i + 1];
      CollectedNotLimited(pods[1..], answers[1..], known,
        collected[pods[0].nodeName := InstanceFor(pods[0], answers[0], known)]);
    }
  }

  /** A rate limit cuts the collection off before its pod. */
  lemma {:induction false} CollectedUntil(
      pods: seq<Pod>, answers: seq<VersionAnswer>, known: map<string, OneAgentInstance>,
      collected: map<string, OneAgentInstance>, i: nat)
    requires |pods| == |answers| && i < |answers| && answers[i].RateLimited? && NoLimit(answers[..i])
    ensures CollectInstances(pods, answers, known, collected)
         == InstancesEnd(CollectInstances(pods[..i], answers[..i], known, collected).instances, true)
    decreases i
  {
    if i > 0 {
      assert answers[..i][0] == answers[0];
      assert pods[..i][1..] == pods[1..][..i - 1] && answers[..i][1..] == answers[1..][..i - 1];
      CollectedUntil(pods[1..], answers[1..], known,
        collected[pods[0].nodeName := InstanceFor(pods[0], answers[0], known)], i - 1);
    }
  }

  /** Without a rate limit the stage records exactly the nodes of the pods, each with its last pod of the list. */
  lemma InstancesRecorded(s: OneAgentStatus, inputs: PassInputs, i: nat, node: string)
    requires inputs.Valid() && inputs.pods.Some? && NoLimit(inputs.answers)
    ensures var pods, end := inputs.pods.value, StatusesStage(s, inputs);
            && !end.limited && end.status.instances.Some?
            && end.status == s.(instances := end.status.instances)
            && (end.update <==> end.status.instances != s.instances)
            && (LastOnNode(pods, i) ==>
                  && pods[i].nodeName in end.status.instances.value
                  && Describes(end.status.instances.value[pods[i].nodeName], pods[i], inputs.answers[i],
                      KnownInstances(s)))
            && ((forall j :: 0 <= j < |pods| ==> pods[j].nodeName != node) ==> node !in end.status.instances.value)
  {
    var pods, answers, known := inputs.pods.value, inputs.answers, KnownInstances(s);
    CollectedNotLimited(pods, answers, known, map[]);
    if LastOnNode(pods, i) {
      CollectedLast(pods, answers, known, map[], i);
    }
    if forall j :: 0 <= j < |pods| ==> pods[j].nodeName != node {
      CollectedKeeps(pods, answers, known, map[], node);
    }
  }

  /** A rate limit fails the stage; what was collected before it is recorded, unless that is nothing. */
  lemma InstancesLimited(s: OneAgentStatus, inputs: PassInputs, i: nat)
    requires inputs.Valid() && inputs.pods.Some?
    requires i < |inputs.answers| && inputs.answers[i].RateLimited? && NoLimit(inputs.answers[..i])
    ensures var end := StatusesStage(s, inputs);
            var before := CollectInstances(inputs.pods.value[..i], inputs.answers[..i], KnownInstances(s),
                map[]).instances;
            && end.limited
            && end.status.instances == if before == map[] then s.instances else Some(before)
  {
    CollectedUntil(inputs.pods.value, inputs.answers, KnownInstances(s), map[], i);
  }

  // ---------- probing for updates ----------

  /** The interval is fifteen minutes, or as many minutes as the environment variable says if it is a number. */
  lemma IntervalMeaning(inputs: PassInputs, minutes: int)
    requires Text.IsInt64(minutes)
    ensures inputs.updateInterval == "" ==> inputs.Interval() == 15 * 60
    ensures inputs.updateInterval == Text.Itoa(minutes) ==> inputs.Interval() == 60 * minutes
    ensures Text.Atoi(inputs.updateInterval).None? ==> inputs.Interval() == 15 * 60
  {
    Text.ItoaAtoiRoundTrip(minutes);
  }

  lemma VersionPartKeepsProbe(spec: OneAgentSpec, r: Rec, inputs: PassInputs)
    requires inputs.Valid()
    ensures VersionPart(spec, r, inputs).status.lastUpdateProbe == r.status.lastUpdateProbe
  {
    StageRecordsLatest(spec, r.status, inputs.update);
  }

  /** The probe time moves only when more than an interval has passed, and then to now. */
  lemma UpdateProbesSpaced(spec: OneAgentSpec, r: Rec, inputs: PassInputs)
    requires inputs.Valid() && r.progress.Going?
    ensures var before, after := r.status.lastUpdateProbe, ProbePart(spec, r, inputs).status.lastUpdateProbe;
            if before.Some? && before.value + inputs.Interval() >= inputs.now
            then ProbePart(spec, r, inputs) == r
            else after == Some(inputs.now) && ProbePart(spec, r, inputs).update
  {
    if UpdateProbeDue(r.status, inputs) {
      var r1 := r.(status := r.status.(lastUpdateProbe := Some(inputs.now))).Update(true);
      VersionPartKeepsProbe(spec, StatusesPart(r1, inputs), inputs);
    }
  }

  /**
   * A pass with automatic updates disabled never restarts a pod, and one of an immutable image leaves that to others.
   */
  lemma NoRestartUnlessWanted(spec: OneAgentSpec, r: Rec, inputs: PassInputs)
    requires inputs.Valid() && (spec.disableAgentUpdate || r.status.useImmutableImage)
    ensures var end := VersionPart(spec, r, inputs);
            end.status == r.status && end.submitted == r.submitted && end.error == r.error
            && end.progress == if spec.disableAgentUpdate then Returned else r.progress
  {
  }

  /** The latest version or the version of a pod was asked for too often. */
  predicate VersionsLimited(e: StageError) {
    e == LatestUnknown(true) || e.VersionsRateLimited?
  }

  /**
   * Otherwise the version stage ends the pass with its panic or its error, and a rate limit is told from other errors;
   * a new version is flagged and ends the pass too. A phase that changes is submitted at once.
   */
  lemma VersionPartEnds(spec: OneAgentSpec, r: Rec, inputs: PassInputs)
    requires inputs.Valid() && !spec.disableAgentUpdate && !r.status.useImmutableImage
    ensures var stage, end := UpdateStage(spec, r.status, inputs.update), VersionPart(spec, r, inputs);
            && (stage.panicked ==> end.progress.Panicked?)
            && (!stage.panicked && stage.error.Some? ==>
                  && end.progress.Returned?
                  && (end.error == Some(TooManyRequests) <==> VersionsLimited(stage.error.value))
                  && (end.error == Some(OtherError) <==> !VersionsLimited(stage.error.value)))
            && (!stage.panicked && stage.error.None? ==>
                  && end.error == r.error
                  && (if end.status.version != r.status.version then end.progress.Returned? && end.update
                      else end.progress == r.progress && end.update == r.update))
            && end.submitted == r.submitted + if end.status.phase != r.status.phase then [end.status] else []
  {
  }

  // ---------- the end of a pass ----------

  /** A pass that gets through its stages ends in the phase the DaemonSet shows, unless an unflagged error hides it. */
  lemma PhaseFollowsDaemonSet(
      spec: OneAgentSpec, s: OneAgentStatus, inputs: PassInputs, accepts: nat -> bool, from: nat, ready: int,
      scheduled: int)
    requires inputs.Valid() && inputs.request.ObjectRead? && Stages(spec, s, inputs).progress.Going?
    requires inputs.daemonSet == DaemonSet(ready, scheduled)
    requires Stages(spec, s, inputs).error.None? || Impl(spec, s, inputs).update
    ensures Pass(spec, s, inputs, accepts, from).status.phase == if ready == scheduled then Running else Deploying
  {
  }

  /** Without a DaemonSet the phase stays as the stages left it. */
  lemma PhaseWithoutDaemonSet(
      spec: OneAgentSpec, s: OneAgentStatus, inputs: PassInputs, accepts: nat -> bool, from: nat)
    requires inputs.Valid() && inputs.request.ObjectRead? && Stages(spec, s, inputs).progress.Going?
    requires inputs.daemonSet.DaemonSetMissing? && Stages(spec, s, inputs).error.None?
    ensures Pass(spec, s, inputs, accepts, from).status.phase == Stages(spec, s, inputs).status.phase
  {
  }

  /** A pass that changed Istio objects does nothing after that and comes back in half a minute. */
  lemma IstioChangeEndsPass(spec: OneAgentSpec, s: OneAgentStatus, inputs: PassInputs, accepts: nat -> bool, from: nat)
    requires inputs.Valid() && inputs.request.ObjectRead? && spec.apiURL != "" && spec.enableIstio
    requires inputs.istio.IstioUpdated? && accepts(from)
    requires Tokens.TokenStage([Tokens.PaaSToken, Tokens.APIToken], s, inputs.tokens).error.None?
    ensures var end := Pass(spec, s, inputs, accepts, from);
            && end.result == Requeue(30)
            && end.status == Tokens.TokenStage([Tokens.PaaSToken, Tokens.APIToken], s, inputs.tokens).status
  {
  }

  predicate IstioChanged(spec: OneAgentSpec, inputs: PassInputs) {
    spec.enableIstio && inputs.istio.IstioUpdated?
  }

  /**
   * Apart from that a record asks to come back after five minutes exactly if something was flagged, else after thirty.
   */
  predicate RequeuesByUpdate(r: Rec) {
    r.requeueAfter == if r.update then 5 * 60 else 30 * 60
  }

  lemma PreparationRequeues(spec: OneAgentSpec, s: OneAgentStatus, inputs: PassInputs)
    requires !IstioChanged(spec, inputs)
    ensures RequeuesByUpdate(Preparation(spec, s, inputs))
  {
    var r1 := TokenPart(spec, Rec(s, [], false, None, 30 * MINUTE, Going), inputs);
    assert RequeuesByUpdate(r1) && IstioPart(spec, r1, inputs) == r1;
    ImagePartRequeues(spec, r1, inputs);
    RolloutPartRequeues(spec, ImagePart(spec, r1, inputs), inputs);
  }

  lemma ImagePartRequeues(spec: OneAgentSpec, r: Rec, inputs: PassInputs)
    requires RequeuesByUpdate(r)
    ensures RequeuesByUpdate(ImagePart(spec, r, inputs))
  {
  }

  lemma RolloutPartRequeues(spec: OneAgentSpec, r: Rec, inputs: PassInputs)
    requires RequeuesByUpdate(r)
    ensures RequeuesByUpdate(RolloutPart(spec, r, inputs))
  {
  }

  lemma ProbePartRequeues(spec: OneAgentSpec, r: Rec, inputs: PassInputs)
    requires inputs.Valid() && RequeuesByUpdate(r)
    ensures RequeuesByUpdate(ProbePart(spec, r, inputs))
  {
  }

  lemma PhasePartRequeues(r: Rec, inputs: PassInputs)
    requires RequeuesByUpdate(r)
    ensures RequeuesByUpdate(PhasePart(r, inputs))
  {
  }

  lemma StagesRequeue(spec: OneAgentSpec, s: OneAgentStatus, inputs: PassInputs)
    requires inputs.Valid() && !IstioChanged(spec, inputs)
    ensures RequeuesByUpdate(Stages(spec, s, inputs))
  {
    PreparationRequeues(spec, s, inputs);
    ProbePartRequeues(spec, Preparation(spec, s, inputs), inputs);
  }

  lemma ImplRequeues(spec: OneAgentSpec, s: OneAgentStatus, inputs: PassInputs)
    requires inputs.Valid() && !IstioChanged(spec, inputs)
    ensures RequeuesByUpdate(Impl(spec, s, inputs))
  {
    StagesRequeue(spec, s, inputs);
    PhasePartRequeues(Stages(spec, s, inputs), inputs);
  }

  /**
   * When a pass comes back, if its writes are accepted: after a minute at a rate limit of the Dynatrace API, after five
   * minutes when something was flagged and after thirty otherwise; any other error is left to the caller.
   */
  lemma PassComesBack(spec: OneAgentSpec, s: OneAgentStatus, inputs: PassInputs, accepts: nat -> bool, from: nat)
    requires inputs.Valid() && inputs.request.ObjectRead? && !IstioChanged(spec, inputs)
    requires !Impl(spec, s, inputs).progress.Panicked? && forall n :: accepts(n)
    ensures var r := Impl(spec, s, inputs);
            Pass(spec, s, inputs, accepts, from).result ==
              match r.error
              case Some(TooManyRequests) => Requeue(60)
              case Some(OtherError) => PassFailed
              case None => Requeue(if r.update then 5 * 60 else 30 * 60)
  {
    ImplRequeues(spec, s, inputs);
  }

  // ---------- the image stage ----------

  /** Something takes the place of nothing, and otherwise some position must decide for the probed version. */
  ghost predicate Supersedes(recorded: string, probed: string) {
    if recorded == "" then probed != ""
    else Versions.DecidedFrom(Versions.Components(recorded), Versions.Components(probed), 0)
  }

  /** The record and its probe time are left alone unless the image is immutable, updates are on and a probe is due. */
  lemma ImageProbeTaken(spec: OneAgentSpec, s: OneAgentStatus, inputs: Images.ImageInputs)
    ensures var end := Images.ImageStage(spec, s, inputs);
            var due := && s.useImmutableImage && !spec.disableAgentUpdate
                       && (s.lastImageVersionProbe.Some? ==> inputs.now >= s.lastImageVersionProbe.value + 15 * 60);
            var asks := due && (spec.image != "" || inputs.imageName);
            && (!asks ==> end.status == s && !end.update && !end.panicked && end.failed == due)
            && (asks ==> end.status.lastImageVersionProbe == Some(inputs.now) && end.update)
            && (asks && !(inputs.pullSecret && inputs.dockerConfig && inputs.image.Some?) ==>
                  end.failed && end.status == s.(lastImageVersionProbe := Some(inputs.now)))
            && (end.panicked <==>
                  && asks && inputs.pullSecret && inputs.dockerConfig && inputs.image.Some? && s.imageVersion != ""
                  && Versions.RunsOut(Versions.Components(s.imageVersion),
                                      Versions.Components(inputs.image.value.version)))
            && (asks && inputs.pullSecret && inputs.dockerConfig && inputs.image.Some? && !end.panicked ==>
                  && !end.failed
                  && end.status.imageVersion == (if Supersedes(s.imageVersion, inputs.image.value.version)
                                                 then inputs.image.value.version else s.imageVersion)
                  && end.status.imageHash == (if Supersedes(s.imageVersion, inputs.image.value.version)
                                              then inputs.image.value.hash else s.imageHash))
  {
    if inputs.image.Some? {
      Versions.CompareMeaning(s.imageVersion, inputs.image.value.version);
      Versions.NewerIrreflexive(s.imageVersion);
    }
  }

  /** The operator's own pull secret for the tenant's registry cannot be brought up to date. */
  predicate PullSecretStuck(spec: OneAgentSpec, inputs: PassInputs) {
    && spec.useImmutableImage && spec.image == ""
    && (inputs.pullSecret.PullSecretLimited? || inputs.pullSecret.PullSecretFailed?)
  }

  /**
   * A failed image stage is an error of the pass that does not end it, while a pull secret that cannot be brought up to
   * date ends it; without either there is no error.
   */
  lemma ImagePartErrors(spec: OneAgentSpec, r: Rec, inputs: PassInputs)
    requires !ImagePart(spec, r, inputs).progress.Panicked?
    ensures var end := ImagePart(spec, r, inputs);
            var failed := Images.ImageStage(spec, r.status.(useImmutableImage := spec.useImmutableImage),
              inputs.image).failed;
            if PullSecretStuck(spec, inputs) then
              && end.progress.Returned?
              && end.error == Some(if inputs.pullSecret.PullSecretLimited? then TooManyRequests else OtherError)
            else
              && end.progress == r.progress
              && end.error == if failed then Some(OtherError) else r.error
  {
  }

  /** Whether an image is immutable follows the custom resource, and a change is flagged. */
  lemma ImagePartFollowsSpec(spec: OneAgentSpec, r: Rec, inputs: PassInputs)
    ensures var end := ImagePart(spec, r, inputs);
            && end.status.useImmutableImage == spec.useImmutableImage
            && (spec.useImmutableImage != r.status.useImmutableImage ==> end.update)
  {
  }
}
