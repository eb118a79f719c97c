/** Which status changes of a reconcile pass reach the API server. */
module StatusWrites {
  import opened Common
  import opened OneAgentApi
  import opened AgentUpdate
  import opened OneAgentController
  import Images = ImageVersions
  import opened RollingRestart
  import Tokens = TokenReconciler
  import TokenProperties

  /** The last status the API server was asked to store, starting from the one it had. */
  function LastWritten(before: OneAgentStatus, submitted: seq<OneAgentStatus>): OneAgentStatus {
    if submitted == [] then before else submitted[|submitted| - 1]
  }

  /** Some change of the status was never handed to the API server. */
  predicate Lost(before: OneAgentStatus, end: PassEnd) {
    LastWritten(before, end.submitted) != end.status
  }

  /** As long as nothing is flagged nothing has changed, and a panic has written nothing. */
  predicate Accounted(before: OneAgentStatus, r: Rec) {
    && (!r.update && !r.progress.Panicked? ==> r.status == before && r.submitted == [])
    && (r.progress.Panicked? ==> r.submitted == [])
  }

  lemma TokenPartAccounted(spec: OneAgentSpec, s: OneAgentStatus, r: Rec, inputs: PassInputs)
    requires Accounted(s, r) && r.progress.Going? && r.submitted == []
    ensures Accounted(s, TokenPart(spec, r, inputs)) && TokenPart(spec, r, inputs).submitted == []
  {
    var tokens := [Tokens.PaaSToken, Tokens.APIToken];
    if !Tokens.TokenStage(tokens, r.status, inputs.tokens).update {
      TokenProperties.NoUpdateNoChange(tokens, r.status, inputs.tokens);
    }
  }

  lemma ImagePartAccounted(spec: OneAgentSpec, s: OneAgentStatus, r: Rec, inputs: PassInputs)
    requires Accounted(s, r) && r.progress.Going? && r.submitted == []
    ensures Accounted(s, ImagePart(spec, r, inputs)) && ImagePart(spec, r, inputs).submitted == []
  {
    var r1 := r.(status := r.status.(useImmutableImage := spec.useImmutableImage))
               .Update(spec.useImmutableImage != r.status.useImmutableImage);
    if !Images.ImageStage(spec, r1.status, inputs.image).update {
      Images.NoUpdateNoChange(spec, r1.status, inputs.image);
    }
  }

  lemma RolloutPartAccounted(spec: OneAgentSpec, s: OneAgentStatus, r: Rec, inputs: PassInputs)
    requires Accounted(s, r) && r.progress.Going? && r.submitted == []
    ensures Accounted(s, RolloutPart(spec, r, inputs)) && RolloutPart(spec, r, inputs).submitted == []
  {
  }

  lemma ProbePartAccounted(spec: OneAgentSpec, s: OneAgentStatus, r: Rec, inputs: PassInputs)
    requires inputs.Valid() && Accounted(s, r) && r.progress.Going? && r.submitted == []
    ensures Accounted(s, ProbePart(spec, r, inputs))
  {
  }

  lemma PreparationAccounted(spec: OneAgentSpec, s: OneAgentStatus, inputs: PassInputs)
    ensures Accounted(s, Preparation(spec, s, inputs)) && Preparation(spec, s, inputs).submitted == []
  {
    var r0 := Rec(s, [], false, None, 30 * MINUTE, Going);
    TokenPartAccounted(spec, s, r0, inputs);
    var r2 := IstioPart(spec, TokenPart(spec, r0, inputs), inputs);
    if r2.progress.Going? {
      ImagePartAccounted(spec, s, r2, inputs);
      var r3 := ImagePart(spec, r2, inputs);
      if r3.progress.Going? {
        RolloutPartAccounted(spec, s, r3, inputs);
      }
    }
  }

  /** No stage changes the status without flagging it, however it ends. */
  lemma StagesAccounted(spec: OneAgentSpec, s: OneAgentStatus, inputs: PassInputs)
    requires inputs.Valid()
    ensures Accounted(s, Stages(spec, s, inputs))
  {
    PreparationAccounted(spec, s, inputs);
    var r := Preparation(spec, s, inputs);
    if r.progress.Going? {
      ProbePartAccounted(spec, s, r, inputs);
    }
  }

  /** The DaemonSet cannot be read at the end of a pass in which nothing was flagged, and the phase is not Error yet. */
  predicate PhaseGoesUnflagged(spec: OneAgentSpec, s: OneAgentStatus, inputs: PassInputs)
    requires inputs.Valid()
  {
    var r := Stages(spec, s, inputs);
    && inputs.request.ObjectRead?
    && r.progress.Going? && inputs.daemonSet.DaemonSetUnreadable? && !r.update && s.phase != Error
  }

  /** Determining the phase without a flag changes nothing, or turns the phase to Error. */
  lemma PhaseWithoutUpdate(s: OneAgentStatus, r: Rec, inputs: PassInputs)
    requires Accounted(s, r) && r.progress.Going? && !PhasePart(r, inputs).update
    ensures var end := PhasePart(r, inputs);
            && end.submitted == [] && !r.update && end.progress.Going?
            && if inputs.daemonSet.DaemonSetUnreadable? then end.status == s.(phase := Error) && end.error.Some?
               else end.status == s
  {
  }

  /** Without a flag the stages left everything alone, and determining the phase at most turned it to Error. */
  lemma ImplWithoutUpdate(spec: OneAgentSpec, s: OneAgentStatus, inputs: PassInputs)
    requires inputs.Valid() && inputs.request.ObjectRead?
    requires !Impl(spec, s, inputs).update && !Impl(spec, s, inputs).progress.Panicked?
    ensures var r := Impl(spec, s, inputs);
            && r.submitted == []
            && if PhaseGoesUnflagged(spec, s, inputs) then r.status == s.(phase := Error) && r.error.Some?
               else r.status == s
  {
    StagesAccounted(spec, s, inputs);
    if Stages(spec, s, inputs).progress.Going? {
      PhaseWithoutUpdate(s, Stages(spec, s, inputs), inputs);
    }
  }

  lemma UpdateStays(spec: OneAgentSpec, s: OneAgentStatus, inputs: PassInputs)
    requires inputs.Valid()
    ensures Impl(spec, s, inputs).update ==> !PhaseGoesUnflagged(spec, s, inputs)
  {
  }

  lemma FinishLoses(before: OneAgentStatus, r: Rec, accepts: nat -> bool, from: nat)
    requires !r.update ==> r.submitted == []
    ensures Lost(before, Finish(r, accepts, from)) <==>
            !r.update && Finish(r, accepts, from).status == r.status && r.status != before
  {
    var end := Finish(r, accepts, from);
    if r.update || end.status != r.status {
      assert end.submitted == r.submitted + [end.status];
    }
  }

  /**
   * In a pass that does not panic, every change of the status is handed to the API server after it was made, whatever
   * stage failed or returned early, with exactly one exception: the phase set to Error by an unreadable DaemonSet when
   * nothing else was flagged.
   */
  lemma NoLostWrites(spec: OneAgentSpec, s: OneAgentStatus, inputs: PassInputs, accepts: nat -> bool, from: nat)
    requires inputs.Valid() && !Pass(spec, s, inputs, accepts, from).result.Crashed?
    ensures Lost(s, Pass(spec, s, inputs, accepts, from)) <==> PhaseGoesUnflagged(spec, s, inputs)
  {
    var r := Impl(spec, s, inputs);
    if inputs.request.ObjectRead? {
      if r.update {
        UpdateStays(spec, s, inputs);
      } else {
        ImplWithoutUpdate(spec, s, inputs);
      }
      FinishLoses(s, r, accepts, from);
    }
  }

  /** The exception loses nothing but the phase, which the next pass finds unchanged. */
  lemma LostPhaseOnly(spec: OneAgentSpec, s: OneAgentStatus, inputs: PassInputs, accepts: nat -> bool, from: nat)
    requires inputs.Valid() && PhaseGoesUnflagged(spec, s, inputs)
    ensures var end := Pass(spec, s, inputs, accepts, from);
            end.submitted == [] && end.status == s.(phase := Error) && end.result == PassFailed
  {
    ImplWithoutUpdate(spec, s, inputs);
  }

  /** A comparison that panics ends the process before anything of the pass was written. */
  lemma CrashWritesNothing(spec: OneAgentSpec, s: OneAgentStatus, inputs: PassInputs, accepts: nat -> bool, from: nat)
    requires inputs.Valid() && Pass(spec, s, inputs, accepts, from).result.Crashed?
    ensures Pass(spec, s, inputs, accepts, from).submitted == []
    ensures Stages(spec, s, inputs).progress.Panicked?
  {
    StagesAccounted(spec, s, inputs);
  }

  /** A flagged change hides a failure: the pass fails, but the written phase is the one the stages left. */
  lemma FailureShowsOnlyWithoutUpdate(
      spec: OneAgentSpec, s: OneAgentStatus, inputs: PassInputs, accepts: nat -> bool, from: nat)
    requires inputs.Valid() && inputs.request.ObjectRead?
    requires Impl(spec, s, inputs).error.Some? && !Impl(spec, s, inputs).progress.Panicked?
    ensures var r, end := Impl(spec, s, inputs), Pass(spec, s, inputs, accepts, from);
            && (end.status.phase == Error <==> !r.update || r.status.phase == Error)
            && (r.update ==> end.submitted != [] && end.submitted[|end.submitted| - 1] == r.status)
  {
  }

  // ---------- a token secret that is gone ----------

  const TOKENS := [Tokens.PaaSToken, Tokens.APIToken]

  function NotFoundReport(inputs: PassInputs): Tokens.TokenKind -> Option<Condition> {
    Tokens.UniformReport("TokenSecretNotFound", "Secret '" + inputs.tokens.secretKey + "' not found")
  }

  /** The conditions have transition times and already say that the secret is missing. */
  predicate MissingReported(s: OneAgentStatus, inputs: PassInputs) {
    !Tokens.NeedsMigration(s.conditions) && TokenProperties.AllReported(s.conditions, TOKENS, NotFoundReport(inputs))
  }

  predicate SecretGone(spec: OneAgentSpec, inputs: PassInputs) {
    inputs.Valid() && inputs.request.ObjectRead? && spec.apiURL != "" && inputs.tokens.secret.SecretMissing?
  }

  lemma MissingStage(s: OneAgentStatus, inputs: PassInputs)
    requires inputs.tokens.secret.SecretMissing?
    ensures var end := Tokens.TokenStage(TOKENS, s, inputs.tokens);
            && end.error == Some(Tokens.SecretNotFound) && end.status == s.(conditions := end.status.conditions)
            && (end.update <==> !MissingReported(s, inputs))
  {
    var now := inputs.tokens.now;
    TokenProperties.ReportIdleIff(Tokens.Migrated(s.conditions, now), TOKENS, NotFoundReport(inputs), now);
    if !Tokens.NeedsMigration(s.conditions) {
      assert Tokens.Migrated(s.conditions, now) == s.conditions;
    }
  }

  /**
   * A pass without the secret fails. It keeps the phase exactly when the conditions do not say so yet, since reporting
   * that is the update that hides the failure; otherwise the phase becomes Error. Either way the phase is written.
   */
  lemma MissingSecretKeepsPhaseIff(
      spec: OneAgentSpec, s: OneAgentStatus, inputs: PassInputs, accepts: nat -> bool, from: nat)
    requires SecretGone(spec, inputs)
    ensures var end := Pass(spec, s, inputs, accepts, from);
            && end.result == PassFailed
            && end.status.phase == (if MissingReported(s, inputs) then Error else s.phase)
            && end.status.conditions == Tokens.TokenStage(TOKENS, s, inputs.tokens).status.conditions
            && LastWritten(s, end.submitted) == end.status
  {
    MissingStage(s, inputs);
    var r := TokenPart(spec, Rec(s, [], false, None, 30 * MINUTE, Going), inputs);
    assert Impl(spec, s, inputs) == r;
    if MissingReported(s, inputs) {
      TokenProperties.NoUpdateNoChange(TOKENS, s, inputs.tokens);
    }
  }

  /** So the first pass may hide the failure, but the next one with the same secret missing shows it. */
  lemma NextMissingSecretShows(
      spec: OneAgentSpec, s: OneAgentStatus, first: PassInputs, second: PassInputs, accepts: nat -> bool, from: nat,
      then': nat)
    requires SecretGone(spec, first) && SecretGone(spec, second) && second.tokens.secretKey == first.tokens.secretKey
    requires TokenProperties.UniqueKinds(s.conditions) && first.tokens.now != ZERO_TIME
    ensures Pass(spec, Pass(spec, s, first, accepts, from).status, second, accepts, then').status.phase == Error
  {
    var s1 := Pass(spec, s, first, accepts, from).status;
    MissingSecretKeepsPhaseIff(spec, s, first, accepts, from);
    MissingSecretKeepsPhaseIff(spec, s1, second, accepts, then');
    MissingIsReported(s, first);
    assert NotFoundReport(second) == NotFoundReport(first);
  }

  lemma MissingIsReported(s: OneAgentStatus, inputs: PassInputs)
    requires inputs.tokens.secret.SecretMissing? && TokenProperties.UniqueKinds(s.conditions)
      && inputs.tokens.now != ZERO_TIME
    ensures MissingReported(Tokens.TokenStage(TOKENS, s, inputs.tokens).status, inputs)
  {
    var now := inputs.tokens.now;
    TokenProperties.StageWellKept(TOKENS, s, inputs.tokens);
    TokenProperties.ReportedAfterwards(Tokens.Migrated(s.conditions, now), TOKENS, NotFoundReport(inputs), now);
  }

  // ---------- the recorded instances ----------

  /** The pass gets as far as the instances, and they are due. */
  predicate ReachesInstances(spec: OneAgentSpec, s: OneAgentStatus, inputs: PassInputs) {
    var r := Preparation(spec, s, inputs);
    inputs.request.ObjectRead? && r.progress.Going? && UpdateProbeDue(r.status, inputs)
  }

  lemma {:induction false} CollectedNotEmpty(
      pods: seq<Pod>, answers: seq<VersionAnswer>, known: map<string, OneAgentInstance>,
      collected: map<string, OneAgentInstance>)
    requires |pods| == |answers| && collected != map[]
    ensures CollectInstances(pods, answers, known, collected).instances != map[]
    decreases |pods|
  {
    if pods != [] && !answers[0].RateLimited? {
      var node, instance := pods[0].nodeName, InstanceFor(pods[0], answers[0], known);
      assert node in collected[node := instance];
      CollectedNotEmpty(pods[1..], answers[1..], known, collected[node := instance]);
    }
  }

  /** The stage empties the instances exactly when it has no pods to look at. */
  lemma StatusesEmptyIff(s: OneAgentStatus, inputs: PassInputs)
    requires inputs.Valid() && s.instances != Some(map[])
    ensures StatusesStage(s, inputs).status.instances == Some(map[]) <==> inputs.pods.None? || inputs.pods == Some([])
    ensures StatusesStage(s, inputs).status.instances == Some(map[]) ==> StatusesStage(s, inputs).update
  {
    if inputs.pods.Some? && inputs.pods.value != [] && !inputs.answers[0].RateLimited? {
      var pods, answers, known := inputs.pods.value, inputs.answers, KnownInstances(s);
      var first := map[pods[0].nodeName := InstanceFor(pods[0], answers[0], known)];
      assert pods[0].nodeName in first;
      CollectedNotEmpty(pods[1..], answers[1..], known, first);
      assert CollectInstances(pods, answers, known, map[]) == CollectInstances(pods[1..], answers[1..], known, first);
    }
  }

  lemma VersionPartKeepsInstances(spec: OneAgentSpec, r: Rec, inputs: PassInputs)
    requires inputs.Valid()
    ensures VersionPart(spec, r, inputs).status.instances == r.status.instances
  {
    StageRecordsLatest(spec, r.status, inputs.update);
  }

  lemma ProbePartEmptyIff(spec: OneAgentSpec, r: Rec, inputs: PassInputs)
    requires inputs.Valid() && r.progress.Going? && r.status.instances != Some(map[])
    ensures var end := ProbePart(spec, r, inputs);
            && (end.status.instances == Some(map[]) <==>
                  UpdateProbeDue(r.status, inputs) && (inputs.pods.None? || inputs.pods == Some([])))
            && (end.status.instances == Some(map[]) ==> end.progress.Returned?)
            && (end.status.instances != Some(map[]) || end.update)
  {
    if UpdateProbeDue(r.status, inputs) {
      var r1 := r.(status := r.status.(lastUpdateProbe := Some(inputs.now))).Update(true);
      StatusesEmptyIff(r1.status, inputs);
      VersionPartKeepsInstances(spec, StatusesPart(r1, inputs), inputs);
    }
  }

  lemma TokenPartKeepsInstances(spec: OneAgentSpec, r: Rec, inputs: PassInputs)
    ensures TokenPart(spec, r, inputs).status.instances == r.status.instances
  {
    TokenProperties.StageKeepsInstances(TOKENS, r.status, inputs.tokens);
  }

  lemma ImagePartKeepsInstances(spec: OneAgentSpec, r: Rec, inputs: PassInputs)
    ensures ImagePart(spec, r, inputs).status.instances == r.status.instances
  {
  }

  lemma RolloutPartKeepsInstances(spec: OneAgentSpec, r: Rec, inputs: PassInputs)
    ensures RolloutPart(spec, r, inputs).status.instances == r.status.instances
  {
  }

  lemma PhasePartKeepsInstances(r: Rec, inputs: PassInputs)
    ensures PhasePart(r, inputs).status.instances == r.status.instances && PhasePart(r, inputs).progress == r.progress
  {
  }

  /** Nothing before the probes touches the instances. */
  lemma PreparationKeepsInstances(spec: OneAgentSpec, s: OneAgentStatus, inputs: PassInputs)
    ensures Preparation(spec, s, inputs).status.instances == s.instances
  {
    var r0 := Rec(s, [], false, None, 30 * MINUTE, Going);
    TokenPartKeepsInstances(spec, r0, inputs);
    var r2 := IstioPart(spec, TokenPart(spec, r0, inputs), inputs);
    if r2.progress.Going? {
      ImagePartKeepsInstances(spec, r2, inputs);
      RolloutPartKeepsInstances(spec, ImagePart(spec, r2, inputs), inputs);
    }
  }

  lemma StagesEmptyIff(spec: OneAgentSpec, s: OneAgentStatus, inputs: PassInputs)
    requires inputs.Valid() && inputs.request.ObjectRead? && s.instances != Some(map[])
    ensures var r := Stages(spec, s, inputs);
            && (r.status.instances == Some(map[]) <==>
                  ReachesInstances(spec, s, inputs) && (inputs.pods.None? || inputs.pods == Some([])))
            && (r.status.instances == Some(map[]) ==> r.update && r.progress.Returned?)
  {
    PreparationKeepsInstances(spec, s, inputs);
    var r := Preparation(spec, s, inputs);
    if r.progress.Going? {
      ProbePartEmptyIff(spec, r, inputs);
    }
  }

  lemma ImplEmptyIff(spec: OneAgentSpec, s: OneAgentStatus, inputs: PassInputs)
    requires inputs.Valid() && inputs.request.ObjectRead? && s.instances != Some(map[])
    ensures var r := Impl(spec, s, inputs);
            && (r.status.instances == Some(map[]) <==>
                  ReachesInstances(spec, s, inputs) && (inputs.pods.None? || inputs.pods == Some([])))
            && (r.status.instances == Some(map[]) ==> r.update && r.progress.Returned?)
  {
    StagesEmptyIff(spec, s, inputs);
    PhasePartKeepsInstances(Stages(spec, s, inputs), inputs);
  }

  /**
   * A pass empties the recorded instances exactly when it gets as far as listing the pods and the list fails or is
   * empty: a failed list is taken for an empty one.
   */
  lemma InstancesErasedIff(spec: OneAgentSpec, s: OneAgentStatus, inputs: PassInputs, accepts: nat -> bool, from: nat)
    requires inputs.Valid() && s.instances != Some(map[])
    ensures LastWritten(s, Pass(spec, s, inputs, accepts, from).submitted).instances == Some(map[])
       <==> ReachesInstances(spec, s, inputs) && (inputs.pods.None? || inputs.pods == Some([]))
  {
    if inputs.request.ObjectRead? {
      ImplEmptyIff(spec, s, inputs);
      if Pass(spec, s, inputs, accepts, from).result.Crashed? {
        CrashWritesNothing(spec, s, inputs, accepts, from);
      } else {
        NoLostWrites(spec, s, inputs, accepts, from);
        if PhaseGoesUnflagged(spec, s, inputs) {
          LostPhaseOnly(spec, s, inputs, accepts, from);
          ImplWithoutUpdate(spec, s, inputs);
        }
      }
    }
  }
}
