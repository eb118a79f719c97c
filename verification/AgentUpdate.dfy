/** Deciding which pods run an outdated agent, and the version stage of a reconcile pass. */
module AgentUpdate {
  import opened Common
  import opened OneAgentApi
  import opened RollingRestart
  import Versions

  /** The answer of GetAgentVersionForIP: a version, HTTP 429, or any other error. */
  datatype VersionAnswer = Reported(version: string) | RateLimited | Unavailable

  datatype SearchOutcome = Complete | Limited | SearchPanicked

  predicate IsOutdated(answer: VersionAnswer, latest: string) {
    answer.Reported? && Versions.Compare(answer.version, latest).Newer?
  }

  /** The answers on which the search gives up: a rate limit, or a comparison that panics. */
  predicate Stops(answer: VersionAnswer, latest: string) {
    answer.RateLimited? || (answer.Reported? && Versions.Compare(answer.version, latest).Panicked?)
  }

  /** The pods whose reported version is strictly older than the latest, in their original order. */
  function OutdatedPods(pods: seq<Pod>, answers: seq<VersionAnswer>, latest: string): seq<Pod>
    requires |pods| == |answers|
    decreases |pods|
  {
    if pods == [] then []
    else (if IsOutdated(answers[0], latest) then [pods[0]] else []) + OutdatedPods(pods[1..], answers[1..], latest)
  }

  lemma {:induction false} OutdatedPodsExtend(pods: seq<Pod>, answers: seq<VersionAnswer>, latest: string, i: nat)
    requires |pods| == |answers| && i < |pods|
    ensures OutdatedPods(pods[..i + 1], answers[..i + 1], latest)
         == OutdatedPods(pods[..i], answers[..i], latest) + if IsOutdated(answers[i], latest) then [pods[i]] else []
    decreases i
  {
    if i > 0 {
      var pods', answers' := pods[1..], answers[1..];
      OutdatedPodsExtend(pods', answers', latest, i - 1);
      OutdatedPodsFirst(pods, answers, latest, i + 1);
      OutdatedPodsFirst(pods, answers, latest, i);
    } else {
      OutdatedPodsFirst(pods, answers, latest, 1);
    }
  }

  lemma OutdatedPodsFirst(pods: seq<Pod>, answers: seq<VersionAnswer>, latest: string, n: nat)
    requires |pods| == |answers| && 0 < n <= |pods|
    ensures OutdatedPods(pods[..n], answers[..n], latest)
         == (if IsOutdated(answers[0], latest) then [pods[0]] else [])
             + OutdatedPods(pods[1..][..n - 1], answers[1..][..n - 1], latest)
  {
    assert pods[..n][1..] == pods[1..][..n - 1];
    assert answers[..n][1..] == answers[1..][..n - 1];
  }

  /** How the search ends: Complete, or whatever the first stopping answer causes. */
  function SearchEnd(answers: seq<VersionAnswer>, latest: string): SearchOutcome {
    if answers == [] then Complete
    else if answers[0].RateLimited? then Limited
    else if Stops(answers[0], latest) then SearchPanicked
    else SearchEnd(answers[1..], latest)
  }

  lemma {:induction false} SearchCompleteIff(answers: seq<VersionAnswer>, latest: string)
    ensures SearchEnd(answers, latest).Complete? <==> forall i :: 0 <= i < |answers| ==> !Stops(answers[i], latest)
    decreases |answers|
  {
    if answers != [] && !Stops(answers[0], latest) {
      SearchCompleteIff(answers[1..], latest);
      forall i | 0 <= i < |answers| && SearchEnd(answers, latest).Complete? ensures !Stops(answers[i], latest) {
        if i > 0 { assert answers[i] == answers[1..][i - 1]; }
      }
      assert forall i :: 0 <= i < |answers| - 1 ==> answers[1..][i] == answers[i + 1];
    }
  }

  method FindOutdatedPodsInstaller(pods: seq<Pod>, answers: seq<VersionAnswer>, latest: string)
    returns (doomed: seq<Pod>, outcome: SearchOutcome)
    requires |pods| == |answers|
    ensures outcome == SearchEnd(answers, latest)
    ensures outcome.Complete? ==> doomed == OutdatedPods(pods, answers, latest)
  {
    doomed, outcome := [], Complete;
    for i := 0 to |pods|
      invariant doomed == OutdatedPods(pods[..i], answers[..i], latest)
      invariant SearchEnd(answers[i..], latest) == SearchEnd(answers, latest)
    {
      assert answers[i..][1..] == answers[i + 1..];
      OutdatedPodsExtend(pods, answers, latest, i);
      match answers[i]
      case RateLimited =>
        return doomed, Limited;
      case Unavailable =>
      case Reported(ver) =>
        var verdict := Versions.IsDesiredNewer(ver, latest);
        if verdict.Panicked? {
          return doomed, SearchPanicked;
        }
        if verdict.Newer? {
          doomed := doomed + [pods[i]];
        }
    }
    assert pods[..|pods|] == pods && answers[..|answers|] == answers;
  }

  // ---------- the version stage ----------

  /** The answer of GetLatestAgentVersion; TooMany is HTTP 429. */
  datatype LatestAnswer = Latest(version: string) | TooMany | Failed

  /** What the API server and the Dynatrace API answer during the stage. */
  datatype UpdateInputs = UpdateInputs(
    latest: LatestAnswer,
    pods: Option<seq<Pod>>,
    answers: seq<VersionAnswer>,
    polls: seq<Poll>,
    protected: set<string>)
  {
    predicate Valid() {
      pods.Some? ==> |pods.value| == |answers|
    }
  }

  datatype StageError =
    | LatestUnknown(limited: bool)
    | PodListFailed
    | VersionsRateLimited
    | RestartFailed(error: RestartError)

  /** The end of a stage: the status it leaves, its (bool, error) result, and the statuses it wrote on the way. */
  datatype UpdateEnd = UpdateEnd(
    status: OneAgentStatus,
    update: bool,
    error: Option<StageError>,
    panicked: bool,
    submitted: seq<OneAgentStatus>,
    events: seq<Event>)

  const DEFAULT_WAIT_SECONDS: uint16 := 300

  function WaitSeconds(spec: OneAgentSpec): uint16 {
    if spec.waitReadySeconds.Some? then spec.waitReadySeconds.value else DEFAULT_WAIT_SECONDS
  }

  /** The latest version replaces the recorded one whenever it is known and different. */
  function WithLatest(status: OneAgentStatus, latest: string): OneAgentStatus {
    if latest != "" && latest != status.version then status.(version := latest) else status
  }

  function UpdateStage(spec: OneAgentSpec, status: OneAgentStatus, inputs: UpdateInputs): UpdateEnd
    requires inputs.Valid()
  {
    if !inputs.latest.Latest? then UpdateEnd(status, false, Some(LatestUnknown(inputs.latest.TooMany?)), false, [], [])
    else
      var s := WithLatest(status, inputs.latest.version);
      var upd := s != status;
      if inputs.pods.None? then UpdateEnd(s, upd, Some(PodListFailed), false, [], [])
      else
        match SearchEnd(inputs.answers, s.version)
        case Limited => UpdateEnd(s, upd, Some(VersionsRateLimited), false, [], [])
        case SearchPanicked => UpdateEnd(s, upd, None, true, [], [])
        case Complete =>
          var doomed := OutdatedPods(inputs.pods.value, inputs.answers, s.version);
          var s' := if doomed != [] then s.(phase := Deploying) else s;
          var end := Restart(doomed, WaitSeconds(spec), inputs.protected, inputs.polls);
          UpdateEnd(s', upd, if end.error.Some? then Some(RestartFailed(end.error.value)) else None, false,
                    if s' != s then [s'] else [], end.events)
  }

  method ReconcileVersionInstaller(oa: OneAgent, inputs: UpdateInputs, cluster: Cluster)
    returns (update: bool, error: Option<StageError>, panicked: bool)
    requires inputs.Valid() && cluster.polls == inputs.polls && cluster.protected == inputs.protected
    modifies oa`status, oa`submitted, cluster
    ensures var end := UpdateStage(oa.spec, old(oa.status), inputs);
            && update == end.update && error == end.error && panicked == end.panicked && oa.status == end.status
            && oa.submitted == old(oa.submitted) + end.submitted && cluster.events == old(cluster.events) + end.events
  {
    update := false;
    if !inputs.latest.Latest? {
      return false, Some(LatestUnknown(inputs.latest.TooMany?)), false;
    }
    var desired := inputs.latest.version;
    if desired != "" && desired != oa.status.version {
      oa.status := oa.status.(version := desired);
      update := true;
      Versions.NewerIrreflexive(desired);
      var logged := Versions.IsDesiredNewer(oa.status.version, desired);
      // The version was overwritten first, so the comparison always sees equal strings.
      assert logged == Versions.NotNewer;
    }
    if inputs.pods.None? {
      return update, Some(PodListFailed), false;
    }
    var doomed, outcome := FindOutdatedPodsInstaller(inputs.pods.value, inputs.answers, oa.status.version);
    if outcome.Limited? {
      return update, Some(VersionsRateLimited), false;
    }
    if outcome.SearchPanicked? {
      return update, None, true;
    }
    var waitSecs := DEFAULT_WAIT_SECONDS;
    if oa.spec.waitReadySeconds.Some? {
      waitSecs := oa.spec.waitReadySeconds.value;
    }
    if |doomed| > 0 {
      var changed := oa.SetPhase(Deploying);
      if changed {
        // A failed write is only logged.
        var _ := oa.UpdateCR();
      }
    }
    var err := cluster.DeletePods(doomed, waitSecs);
    if err.Some? {
      return update, Some(RestartFailed(err.value)), false;
    }
    return update, None, false;
  }

  /** The recorded version after the stage is the latest one, unless that is unknown or empty. */
  lemma StageRecordsLatest(spec: OneAgentSpec, status: OneAgentStatus, inputs: UpdateInputs)
    requires inputs.Valid()
    ensures var end := UpdateStage(spec, status, inputs);
            && end.status.version == (if inputs.latest.Latest? && inputs.latest.version != ""
                                      then inputs.latest.version else status.version)
            && (end.update <==> end.status.version != status.version)
            && end.status == status.(version := end.status.version, phase := end.status.phase)
            && (end.status.phase != status.phase ==> end.submitted == [end.status])
  {
  }

  /**
   * A pass deletes a prefix of the pods whose reported version is strictly older than the latest, and none at all
   * when any version answer is a rate limit or makes the comparison panic, or when a list is missing.
   */
  lemma OnlyOutdatedPodsDeleted(spec: OneAgentSpec, status: OneAgentStatus, inputs: UpdateInputs)
    requires inputs.Valid()
    ensures var end := UpdateStage(spec, status, inputs);
            && (end.events != [] ==>
                  && inputs.latest.Latest? && inputs.pods.Some?
                  && Deleted(end.events) <= OutdatedPods(inputs.pods.value, inputs.answers, end.status.version)
                  && forall i :: 0 <= i < |inputs.answers| ==> !inputs.answers[i].RateLimited?)
  {
    if inputs.latest.Latest? && inputs.pods.Some? {
      var s := WithLatest(status, inputs.latest.version);
      SearchCompleteIff(inputs.answers, s.version);
      DeletedIsPrefix(OutdatedPods(inputs.pods.value, inputs.answers, s.version),
                      WaitSeconds(spec), inputs.protected, inputs.polls);
    }
  }

  // ---------- every outdated pod is restarted ----------

  /** The pods of which the API reports an older version, and no others. */
  lemma {:induction false} OutdatedPodsMeaning(pods: seq<Pod>, answers: seq<VersionAnswer>, latest: string, p: Pod)
    requires |pods| == |answers|
    ensures p in OutdatedPods(pods, answers, latest) <==>
            exists i :: 0 <= i < |pods| && pods[i] == p && answers[i].Reported?
                        && Versions.Compare(answers[i].version, latest).Newer?
    decreases |pods|
  {
    if pods != [] {
      OutdatedPodsMeaning(pods[1..], answers[1..], latest, p);
      assert forall i :: 0 < i < |pods| ==> pods[i] == pods[1..][i - 1] && answers[i] == answers[1..][i - 1];
      assert forall i :: 0 <= i < |pods| - 1 ==> pods[1..][i] == pods[i + 1] && answers[1..][i] == answers[i + 1];
    }
  }

  /** A rate limit, or a reported version beside which the latest runs out of components, leads to no decision. */
  predicate NoDecision(answer: VersionAnswer, latest: string) {
    || answer.RateLimited?
    || (answer.Reported? && Versions.RunsOut(Versions.Components(answer.version), Versions.Components(latest)))
  }

  lemma StopsIffNoDecision(latest: string)
    ensures forall answer :: Stops(answer, latest) <==> NoDecision(answer, latest)
  {
    forall answer: VersionAnswer | answer.Reported? ensures Stops(answer, latest) <==> NoDecision(answer, latest) {
      Versions.CompareMeaning(answer.version, latest);
    }
  }

  /** The latest version and the pods are known, and every version answer leads to a decision. */
  predicate Decidable(status: OneAgentStatus, inputs: UpdateInputs) {
    && inputs.Valid() && inputs.latest.Latest? && inputs.pods.Some?
    && forall i :: 0 <= i < |inputs.answers| ==>
         !NoDecision(inputs.answers[i], if inputs.latest.version != "" then inputs.latest.version else status.version)
  }

  /** How long the stage waits for a replacement. */
  predicate WaitsFor(spec: OneAgentSpec, seconds: uint16) {
    match spec.waitReadySeconds
    case Some(n) => seconds == n
    case None => seconds == 300
  }

  /**
   * Whether or not the recorded version has just changed: with everything known, all outdated pods are restarted in
   * order, each after the one before has recovered, unless an error stops this; the phase is Deploying if there are
   * any.
   */
  lemma OutdatedPodsRestarted(spec: OneAgentSpec, status: OneAgentStatus, inputs: UpdateInputs, seconds: uint16)
    returns (k: nat)
    requires Decidable(status, inputs) && WaitsFor(spec, seconds)
    ensures var end := UpdateStage(spec, status, inputs);
            var doomed := OutdatedPods(inputs.pods.value, inputs.answers, end.status.version);
            && !end.panicked
            && end.status.phase == (if doomed != [] then Deploying else status.phase)
            && (end.error.None? ==> k == |doomed| && Deleted(end.events) == doomed)
            && (end.error.Some? ==>
                  && k < |doomed| && end.error.value.RestartFailed?
                  && Deleted(end.events) == if doomed[k].name in inputs.protected then doomed[..k] else doomed[..k + 1])
            && forall i :: 0 <= i < k ==> ReturnedNil(WaitAt(doomed, seconds, inputs.polls, i))
  {
    var s := WithLatest(status, inputs.latest.version);
    StopsIffNoDecision(s.version);
    SearchCompleteIff(inputs.answers, s.version);
    var doomed := OutdatedPods(inputs.pods.value, inputs.answers, s.version);
    k := OneAtATime(doomed, seconds, inputs.protected, inputs.polls);
    if k < |doomed| {
      DeletedWhenStopped(doomed, k);
    } else {
      DeletedOfTrace(doomed);
    }
  }

  lemma DeletedOne(p: Pod)
    ensures Deleted([PodDeleted(p)]) == [p]
  {
    assert [PodDeleted(p)][1..] == [];
    assert Deleted([]) == [];
  }

  lemma DeletedAndOneMore(done: seq<Event>, pods: seq<Pod>, p: Pod)
    requires Deleted(done) == pods
    ensures Deleted(done + [PodDeleted(p)]) == pods + [p]
  {
    DeletedAppend(done, [PodDeleted(p)]);
    DeletedOne(p);
  }

  lemma DeletedWhenStopped(pods: seq<Pod>, k: nat)
    requires k < |pods|
    ensures Deleted(CompleteTrace(pods[..k])) == pods[..k]
    ensures Deleted(CompleteTrace(pods[..k]) + [PodDeleted(pods[k])]) == pods[..k + 1]
  {
    var before := pods[..k];
    DeletedOfTrace(before);
    DeletedAndOneMore(CompleteTrace(before), before, pods[k]);
    assert before + [pods[k]] == pods[..k + 1];
  }

  /** The first answer on which the search gives up. */
  predicate FirstStop(answers: seq<VersionAnswer>, latest: string, i: nat) {
    i < |answers| && NoDecision(answers[i], latest) && forall j :: 0 <= j < i ==> !NoDecision(answers[j], latest)
  }

  lemma {:induction false} SearchEndsAtFirstStop(answers: seq<VersionAnswer>, latest: string, i: nat)
    requires FirstStop(answers, latest, i)
    ensures SearchEnd(answers, latest) == if answers[i].RateLimited? then Limited else SearchPanicked
    decreases i
  {
    StopsIffNoDecision(latest);
    if i > 0 {
      assert forall j :: 0 <= j < |answers| - 1 ==> answers[1..][j] == answers[j + 1];
      SearchEndsAtFirstStop(answers[1..], latest, i - 1);
    }
  }

  /**
   * What else can end the stage, and then deletes nothing: a missing list or version, or the first answer that stops.
   */
  lemma StageStops(spec: OneAgentSpec, status: OneAgentStatus, inputs: UpdateInputs, i: nat)
    requires inputs.Valid()
    ensures var end := UpdateStage(spec, status, inputs);
            && (!inputs.latest.Latest? ==>
                  && end.error == Some(LatestUnknown(inputs.latest.TooMany?)) && end.status == status
                  && end.events == [] && !end.panicked)
            && (inputs.latest.Latest? && inputs.pods.None? ==>
                  end.error == Some(PodListFailed) && end.events == [] && !end.panicked)
            && (inputs.latest.Latest? && inputs.pods.Some? && FirstStop(inputs.answers, end.status.version, i) ==>
                  && end.events == [] && end.status.phase == status.phase
                  && end.panicked == !inputs.answers[i].RateLimited?
                  && end.error == if inputs.answers[i].RateLimited? then Some(VersionsRateLimited) else None)
  {
    var s := WithLatest(status, if inputs.latest.Latest? then inputs.latest.version else "");
    if inputs.latest.Latest? && inputs.pods.Some? && FirstStop(inputs.answers, s.version, i) {
      SearchEndsAtFirstStop(inputs.answers, s.version, i);
    }
  }
}
