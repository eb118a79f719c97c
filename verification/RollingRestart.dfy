/** Restarting outdated OneAgent pods one at a time, and waiting for each replacement. */
module RollingRestart {
  import opened Common

  // ---------- waiting for a replacement ----------

  const SPLAY_TIME_SECONDS: int := 10
  const UINT16_RANGE: int := 0x1_0000

  datatype Pod = Pod(name: string, nodeName: string, hostIP: string, running: bool, containersReady: seq<bool>)

  /** The answer to one List call: None when the call failed. */
  type Poll = Option<seq<Pod>>

  /** The error waitPodReadyState would return now; Fine is nil. */
  datatype WaitStatus = Fine | ListFailed | NotRecreated | TooMany(found: nat)

  /** Running pods on the same node other than the deleted one. */
  function Replacements(pod: Pod, pods: seq<Pod>): seq<Pod> {
    if pods == [] then []
    else if pods[0].nodeName == pod.nodeName && pods[0].running && pods[0].name != pod.name then
      [pods[0]] + Replacements(pod, pods[1..])
    else Replacements(pod, pods[1..])
  }

  predicate Ready(p: Pod) {
    forall i :: 0 <= i < |p.containersReady| ==> p.containersReady[i]
  }

  predicate OneReplacement(pod: Pod, poll: Poll) {
    poll.Some? && |Replacements(pod, poll.value)| == 1
  }

  /** The poll on which the loop breaks. */
  predicate Recovered(pod: Pod, poll: Poll) {
    OneReplacement(pod, poll) && Ready(Replacements(pod, poll.value)[0])
  }

  function StatusAfter(pod: Pod, poll: Poll): WaitStatus {
    if poll.None? then ListFailed
    else
      var n := |Replacements(pod, poll.value)|;
      if n == 0 then NotRecreated else if n == 1 then Fine else TooMany(n)
  }

  /** How a wait went over a finite run of poll answers. */
  datatype WaitResult = WaitResult(status: WaitStatus, polls: nat, finished: bool, broke: bool)

  function Advance(splay: uint16): uint16 {
    (splay + SPLAY_TIME_SECONDS) % UINT16_RANGE
  }

  /** The rest of a wait whose counter is at splay; it stops unfinished when the given answers are used up. */
  function WaitFrom(pod: Pod, waitSecs: uint16, splay: uint16, status: WaitStatus, polls: seq<Poll>): (r: WaitResult)
    ensures r.polls <= |polls|
    decreases |polls|
  {
    if splay >= waitSecs then WaitResult(status, 0, true, false)
    else if polls == [] then WaitResult(status, 0, false, false)
    else if Recovered(pod, polls[0]) then WaitResult(Fine, 1, true, true)
    else
      var r := WaitFrom(pod, waitSecs, Advance(splay), StatusAfter(pod, polls[0]), polls[1..]);
      r.(polls := r.polls + 1)
  }

  function Wait(pod: Pod, waitSecs: uint16, polls: seq<Poll>): (r: WaitResult)
    ensures r.polls <= |polls|
  {
    WaitFrom(pod, waitSecs, 0, Fine, polls)
  }

  // ---------- the cluster as the restart sees it ----------

  datatype Event = PodDeleted(pod: Pod) | PodRecovered(pod: Pod)

  datatype RestartError = DeleteFailed | WaitFailed(status: WaitStatus) | StillWaiting

  class Cluster {
    /** The answers the API server will give to the List calls still to come. */
    var polls: seq<Poll>
    /** What the restart did, in order. */
    var events: seq<Event>
    /** Names of pods whose deletion the API server refuses. */
    const protected: set<string>

    constructor (polls: seq<Poll>, protected: set<string>)
      ensures this.polls == polls && this.protected == protected && events == []
    {
      this.polls := polls;
      this.protected := protected;
      events := [];
    }

    method ListPods() returns (poll: Poll)
      requires polls != []
      modifies this`polls
      ensures poll == old(polls)[0] && polls == old(polls)[1..]
    {
      poll := polls[0];
      polls := polls[1..];
    }

    method DeletePod(pod: Pod) returns (ok: bool)
      modifies this`events
      ensures ok == (pod.name !in protected)
      ensures events == if ok then old(events) + [PodDeleted(pod)] else old(events)
    {
      ok := pod.name !in protected;
      if ok {
        events := events + [PodDeleted(pod)];
      }
    }

    method WaitPodReadyState(pod: Pod, waitSecs: uint16) returns (r: WaitResult)
      modifies this`polls
      ensures r == Wait(pod, waitSecs, old(polls))
      ensures polls == old(polls)[r.polls..]
    {
      var status := Fine;
      var splay: uint16 := 0;
      var used := 0;
      ghost var all := polls;
      while splay < waitSecs
        invariant used <= |all| && polls == all[used..]
        invariant Wait(pod, waitSecs, all) ==
                  var rest := WaitFrom(pod, waitSecs, splay, status, polls); rest.(polls := rest.polls + used)
        decreases |polls|
      {
        if polls == [] {
          return WaitResult(status, used, false, false);
        }
        var podList := ListPods();
        used := used + 1;
        if podList.None? {
          status := ListFailed;
          splay := (splay + SPLAY_TIME_SECONDS) % UINT16_RANGE;
          continue;
        }
        status := Fine;
        var found := [];
        var i := 0;
        while i < |podList.value|
          invariant 0 <= i <= |podList.value|
          invariant found + Replacements(pod, podList.value[i..]) == Replacements(pod, podList.value)
        {
          var p := podList.value[i];
          assert podList.value[i..] == [p] + podList.value[i + 1..];
          if !(p.nodeName != pod.nodeName || !p.running || p.name == pod.name) {
            found := found + [p];
          }
          i := i + 1;
        }
        var n := |found|;
        if n == 0 {
          status := NotRecreated;
        } else if n == 1 && Ready(found[0]) {
          return WaitResult(status, used, true, true);
        } else if n > 1 {
          status := TooMany(n);
        }
        splay := (splay + SPLAY_TIME_SECONDS) % UINT16_RANGE;
      }
      return WaitResult(status, used, true, false);
    }

    /** One round of the loop over the pods. */
    method RestartPod(pod: Pod, waitSecs: uint16) returns (error: Option<RestartError>)
      modifies this
      ensures var end := RestartOne(pod, waitSecs, protected, old(polls));
              && error == end.error && events == old(events) + end.events && polls == end.polls
    {
      var ok := DeletePod(pod);
      if !ok {
        return Some(DeleteFailed);
      }
      var wait := WaitPodReadyState(pod, waitSecs);
      if !wait.finished {
        return Some(StillWaiting);
      }
      if wait.status != Fine {
        return Some(WaitFailed(wait.status));
      }
      events := events + [PodRecovered(pod)];
      return None;
    }

    method DeletePods(pods: seq<Pod>, waitSecs: uint16) returns (error: Option<RestartError>)
      modifies this
      ensures var end := Restart(pods, waitSecs, protected, old(polls));
              && error == end.error && events == old(events) + end.events && polls == end.polls
    {
      ghost var before := events;
      ghost var end := Restart(pods, waitSecs, protected, polls);
      assert pods[0..] == pods;
      for i := 0 to |pods|
        invariant Continues(before, end, events, Restart(pods[i..], waitSecs, protected, polls))
      {
        RestartStep(before, end, events, pods, i, waitSecs, protected, polls);
        error := RestartPod(pods[i], waitSecs);
        if error.Some? {
          return;
        }
      }
      return None;
    }
  }

  /** What a restart leaves: its error if any, what it did, and the answers it did not use. */
  datatype RestartEnd = RestartEnd(error: Option<RestartError>, events: seq<Event>, polls: seq<Poll>) {
    function After(earlier: seq<Event>): RestartEnd {
      this.(events := earlier + events)
    }
  }

  /** The whole run is what was done so far followed by the rest. */
  predicate Continues(before: seq<Event>, whole: RestartEnd, events: seq<Event>, rest: RestartEnd) {
    whole.error == rest.error && whole.polls == rest.polls && before + whole.events == events + rest.events
  }

  function RestartOne(pod: Pod, waitSecs: uint16, protected: set<string>, polls: seq<Poll>): RestartEnd {
    if pod.name in protected then RestartEnd(Some(DeleteFailed), [], polls)
    else
      var wait := Wait(pod, waitSecs, polls);
      var rest := polls[wait.polls..];
      if !wait.finished then RestartEnd(Some(StillWaiting), [PodDeleted(pod)], rest)
      else if wait.status != Fine then RestartEnd(Some(WaitFailed(wait.status)), [PodDeleted(pod)], rest)
      else RestartEnd(None, [PodDeleted(pod), PodRecovered(pod)], rest)
  }

  function Restart(pods: seq<Pod>, waitSecs: uint16, protected: set<string>, polls: seq<Poll>): RestartEnd {
    if pods == [] then RestartEnd(None, [], polls)
    else
      var first := RestartOne(pods[0], waitSecs, protected, polls);
      if first.error.Some? then first else Restart(pods[1..], waitSecs, protected, first.polls).After(first.events)
  }

  /** What handling pod i does to a run whose earlier part is done. */
  lemma RestartStep(before: seq<Event>, whole: RestartEnd, events: seq<Event>, pods: seq<Pod>, i: nat, waitSecs: uint16,
                    protected: set<string>, polls: seq<Poll>)
    requires i < |pods| && Continues(before, whole, events, Restart(pods[i..], waitSecs, protected, polls))
    ensures var one := RestartOne(pods[i], waitSecs, protected, polls);
            if one.error.Some? then Continues(before, whole, events, one)
            else Continues(before, whole, events + one.events, Restart(pods[i + 1..], waitSecs, protected, one.polls))
  {
    assert pods[i..][0] == pods[i] && pods[i..][1..] == pods[i + 1..];
    var one := RestartOne(pods[i], waitSecs, protected, polls);
    var next := Restart(pods[i + 1..], waitSecs, protected, one.polls);
    assert events + (one.events + next.events) == events + one.events + next.events;
  }

  // ---------- properties of the wait ----------

  lemma {:induction false} WaitFromMeaning(
      pod: Pod, waitSecs: uint16, splay: uint16, status: WaitStatus, polls: seq<Poll>)
    ensures var r := WaitFrom(pod, waitSecs, splay, status, polls);
            && (r.polls == 0 ==> r.status == status && !r.broke)
            && (r.polls > 0 ==> r.status == StatusAfter(pod, polls[r.polls - 1]))
            && (r.polls > 0 ==> r.broke == Recovered(pod, polls[r.polls - 1]))
            && (forall i :: 0 <= i < r.polls - 1 ==> !Recovered(pod, polls[i]))
            && (!r.finished ==> r.polls == |polls|)
            && (splay < waitSecs && r.finished ==> r.polls > 0)
    decreases |polls|
  {
    if splay < waitSecs && polls != [] && !Recovered(pod, polls[0]) {
      WaitFromMeaning(pod, waitSecs, Advance(splay), StatusAfter(pod, polls[0]), polls[1..]);
      var r := WaitFrom(pod, waitSecs, splay, status, polls);
      forall i | 0 <= i < r.polls - 1 ensures !Recovered(pod, polls[i]) {
        if i > 0 { assert polls[i] == polls[1..][i - 1]; }
      }
    }
  }

  /**
   * A finished wait returns nil exactly when there was nothing to wait for or its last poll saw exactly one
   * running replacement; that replacement was ready exactly when the loop left by its break.
   */
  lemma NilMeansOneReplacement(pod: Pod, waitSecs: uint16, polls: seq<Poll>)
    ensures var r := Wait(pod, waitSecs, polls);
            r.finished ==>
              && (r.status == Fine <==> waitSecs == 0 || (r.polls > 0 && OneReplacement(pod, polls[r.polls - 1])))
              && (r.broke <==> r.polls > 0 && Recovered(pod, polls[r.polls - 1]))
              && (waitSecs == 0 <==> r.polls == 0)
  {
    WaitFromMeaning(pod, waitSecs, 0, Fine, polls);
  }

  /** The counter at the k-th poll. */
  function SplayAt(k: nat): uint16 {
    (k * SPLAY_TIME_SECONDS) % UINT16_RANGE
  }

  predicate NoneRecovered(pod: Pod, polls: seq<Poll>) {
    forall i :: 0 <= i < |polls| ==> !Recovered(pod, polls[i])
  }

  /** The number of polls a wait makes when no replacement ever becomes ready; the last value would never end. */
  function PollLimit(waitSecs: uint16): (n: nat)
    requires waitSecs < 65535
  {
    if waitSecs <= 65530 then (waitSecs + 9) / 10 else 13107
  }

  /** A pod that can stand for the deleted one: another running pod on its node. */
  predicate Replaces(p: Pod, pod: Pod) {
    p.nodeName == pod.nodeName && p.running && p.name != pod.name
  }

  /** The replacements are exactly the pods of the list that can stand for the deleted one, as often as listed. */
  lemma {:induction false} ReplacementsMeaning(pod: Pod, pods: seq<Pod>, p: Pod)
    ensures multiset(Replacements(pod, pods))[p] == if Replaces(p, pod) then multiset(pods)[p] else 0
    decreases |pods|
  {
    if pods != [] {
      ReplacementsMeaning(pod, pods[1..], p);
      assert pods == [pods[0]] + pods[1..];
    }
  }

  /** The loop breaks on a list with one such pod, all of whose containers are ready. */
  lemma RecoveredMeaning(pod: Pod, pods: seq<Pod>, p: Pod)
    requires Recovered(pod, Some(pods)) && p in pods && Replaces(p, pod)
    ensures forall i :: 0 <= i < |p.containersReady| ==> p.containersReady[i]
    ensures multiset(pods)[p] == 1 && forall q :: q in pods && Replaces(q, pod) ==> q == p
  {
    var r := Replacements(pod, pods);
    assert r == [r[0]];
    ReplacementsMeaning(pod, pods, p);
    assert p in multiset(r);
    forall q | q in pods && Replaces(q, pod) ensures q == p {
      ReplacementsMeaning(pod, pods, q);
      assert q in multiset(r);
    }
  }

  /** The converse: one ready replacement in the list ends the wait. */
  lemma OneReadyRecovers(pod: Pod, pods: seq<Pod>, p: Pod)
    requires p in pods && Replaces(p, pod) && multiset(pods)[p] == 1
    requires forall q :: q in pods && Replaces(q, pod) ==> q == p
    requires forall i :: 0 <= i < |p.containersReady| ==> p.containersReady[i]
    ensures Recovered(pod, Some(pods))
  {
    var r := Replacements(pod, pods);
    ReplacementsMeaning(pod, pods, p);
    forall q ensures multiset(r)[q] == multiset([p])[q] {
      ReplacementsMeaning(pod, pods, q);
    }
    assert multiset(r) == multiset([p]);
    assert |multiset(r)| == |r|;
    assert r[0] in multiset(r);
  }

  /** A wait that ends at its deadline reports what its last poll saw. */
  lemma StatusTellsLastPoll(pod: Pod, waitSecs: uint16, polls: seq<Poll>)
    ensures var r := Wait(pod, waitSecs, polls);
            r.polls > 0 ==>
              match polls[r.polls - 1]
              case None => r.status == ListFailed
              case Some(pods) =>
                var found := |Replacements(pod, pods)|;
                && (r.status == NotRecreated <==> found == 0)
                && (forall n :: r.status == TooMany(n) <==> n == found && found > 1)
  {
    WaitFromMeaning(pod, waitSecs, 0, Fine, polls);
  }

  lemma SplayBeforeLimit(waitSecs: uint16, k: nat)
    requires waitSecs < 65535 && k <= PollLimit(waitSecs)
    ensures SplayAt(k) < waitSecs <==> k < PollLimit(waitSecs)
    ensures waitSecs <= 65530 && k < PollLimit(waitSecs) ==> SplayAt(k) == 10 * k
  {
    if k * 10 < 65536 {
      assert SplayAt(k) == k * 10;
    } else {
      assert 65536 <= k * 10 < 2 * 65536;
      assert SplayAt(k) == k * 10 - 65536;
    }
  }

  lemma {:induction false} WaitUntilLimit(pod: Pod, waitSecs: uint16, k: nat, status: WaitStatus, polls: seq<Poll>)
    requires waitSecs < 65535 && k <= PollLimit(waitSecs)
    ensures var r := WaitFrom(pod, waitSecs, SplayAt(k), status, polls);
            && k + r.polls <= PollLimit(waitSecs)
            && (k + |polls| >= PollLimit(waitSecs) ==> r.finished)
            && (NoneRecovered(pod, polls) && r.finished ==> k + r.polls == PollLimit(waitSecs))
    decreases |polls|
  {
    SplayBeforeLimit(waitSecs, k);
    if k < PollLimit(waitSecs) && polls != [] && !Recovered(pod, polls[0]) {
      assert Advance(SplayAt(k)) == SplayAt(k + 1);
      WaitUntilLimit(pod, waitSecs, k + 1, StatusAfter(pod, polls[0]), polls[1..]);
      assert NoneRecovered(pod, polls) ==> NoneRecovered(pod, polls[1..]) by {
        if NoneRecovered(pod, polls) {
          forall i | 0 <= i < |polls[1..]| ensures !Recovered(pod, polls[1..][i]) {
            assert polls[1..][i] == polls[i + 1];
          }
        }
      }
    }
  }

  /**
   * Below the largest uint16 every wait ends: after at most ceil(waitSecs / 10) polls while the counter cannot wrap,
   * and after 13107 polls, twice around, for the four values 65531 to 65534.
   */
  lemma WaitEnds(pod: Pod, waitSecs: uint16, polls: seq<Poll>)
    requires waitSecs < 65535
    ensures var r := Wait(pod, waitSecs, polls);
            && r.polls <= PollLimit(waitSecs)
            && (|polls| >= PollLimit(waitSecs) ==> r.finished)
            && (NoneRecovered(pod, polls) && r.finished ==> r.polls == PollLimit(waitSecs))
  {
    WaitUntilLimit(pod, waitSecs, 0, Fine, polls);
  }

  lemma {:induction false} EvenCounterNeverReaches(pod: Pod, splay: uint16, status: WaitStatus, polls: seq<Poll>)
    requires splay % 2 == 0 && NoneRecovered(pod, polls)
    ensures !WaitFrom(pod, 65535, splay, status, polls).finished
    decreases |polls|
  {
    if polls != [] {
      forall i | 0 <= i < |polls[1..]| ensures !Recovered(pod, polls[1..][i]) {
        assert polls[1..][i] == polls[i + 1];
      }
      EvenCounterNeverReaches(pod, Advance(splay), StatusAfter(pod, polls[0]), polls[1..]);
    }
  }

  /** With waitSecs 65535 the deadline is never reached: only a ready replacement ends the wait. */
  lemma LargestWaitNeverTimesOut(pod: Pod, polls: seq<Poll>)
    ensures Wait(pod, 65535, polls).finished <==> exists i :: 0 <= i < |polls| && Recovered(pod, polls[i])
  {
    var r := Wait(pod, 65535, polls);
    WaitFromMeaning(pod, 65535, 0, Fine, polls);
    if NoneRecovered(pod, polls) {
      EvenCounterNeverReaches(pod, 0, Fine, polls);
    } else if !r.finished {
      var i :| 0 <= i < |polls| && Recovered(pod, polls[i]);
      UnfinishedSawNone(pod, 0, Fine, polls);
    }
  }

  lemma {:induction false} UnfinishedSawNone(pod: Pod, splay: uint16, status: WaitStatus, polls: seq<Poll>)
    requires !WaitFrom(pod, 65535, splay, status, polls).finished
    ensures NoneRecovered(pod, polls)
    decreases |polls|
  {
    if polls != [] {
      UnfinishedSawNone(pod, Advance(splay), StatusAfter(pod, polls[0]), polls[1..]);
      forall i | 0 <= i < |polls| ensures !Recovered(pod, polls[i]) {
        if i > 0 { assert polls[i] == polls[1..][i - 1]; }
      }
    }
  }

  /** Some poll answers make the wait go on to a poll after the first k. */
  ghost predicate ReachesPoll(pod: Pod, waitSecs: uint16, k: nat) {
    exists polls: seq<Poll> :: Wait(pod, waitSecs, polls).polls > k
  }

  lemma WrappingWaitReaches(pod: Pod, waitSecs: uint16, polls: seq<Poll>)
    requires 65531 <= waitSecs && NoneRecovered(pod, polls) && |polls| < 13107
    ensures Wait(pod, waitSecs, polls).polls == |polls|
  {
    WaitFromMeaning(pod, waitSecs, 0, Fine, polls);
    if waitSecs < 65535 {
      WaitEnds(pod, waitSecs, polls);
    } else {
      EvenCounterNeverReaches(pod, 0, Fine, polls);
    }
  }

  /** The counter is the elapsed time at every poll a wait can reach exactly up to 65530 seconds. */
  lemma CounterIsElapsedTimeIff(pod: Pod, waitSecs: uint16)
    ensures (forall k: nat :: ReachesPoll(pod, waitSecs, k) ==> SplayAt(k) == 10 * k) <==> waitSecs <= 65530
  {
    if waitSecs <= 65530 {
      forall k: nat | ReachesPoll(pod, waitSecs, k) ensures SplayAt(k) == 10 * k {
        var polls: seq<Poll> :| Wait(pod, waitSecs, polls).polls > k;
        WaitEnds(pod, waitSecs, polls);
        SplayBeforeLimit(waitSecs, k);
      }
    } else {
      var polls := seq(6555, _ => None);
      WrappingWaitReaches(pod, waitSecs, polls);
      assert ReachesPoll(pod, waitSecs, 6554);
      assert SplayAt(6554) == 4;
    }
  }

  // ---------- properties of the restart ----------

  /** The trace of a restart of all the given pods, each followed by its recovery. */
  function CompleteTrace(pods: seq<Pod>): seq<Event> {
    if pods == [] then [] else [PodDeleted(pods[0]), PodRecovered(pods[0])] + CompleteTrace(pods[1..])
  }

  /** How many poll answers the waits for the given pods use up, one wait after the other. */
  function Used(pods: seq<Pod>, waitSecs: uint16, polls: seq<Poll>): (n: nat)
    ensures n <= |polls|
    decreases |pods|
  {
    if pods == [] then 0
    else
      var first := Wait(pods[0], waitSecs, polls).polls;
      first + Used(pods[1..], waitSecs, polls[first..])
  }

  /** The wait for pod i, which starts where the waits for the pods before it ended. */
  function WaitAt(pods: seq<Pod>, waitSecs: uint16, polls: seq<Poll>, i: nat): WaitResult
    requires i < |pods|
  {
    Wait(pods[i], waitSecs, polls[Used(pods[..i], waitSecs, polls)..])
  }

  predicate ReturnedNil(r: WaitResult) {
    r.finished && r.status == Fine
  }

  predicate Stepwise(
      pods: seq<Pod>, waitSecs: uint16, protected: set<string>, polls: seq<Poll>, end: RestartEnd, k: nat)
  {
    && k <= |pods|
    && (forall i :: 0 <= i < k ==> ReturnedNil(WaitAt(pods, waitSecs, polls, i)))
    && if k == |pods| then end.error.None? && end.events == CompleteTrace(pods)
       else if pods[k].name in protected then end.error == Some(DeleteFailed) && end.events == CompleteTrace(pods[..k])
       else
         var wait := WaitAt(pods, waitSecs, polls, k);
         && !ReturnedNil(wait)
         && end.error == Some(if wait.finished then WaitFailed(wait.status) else StillWaiting)
         && end.events == CompleteTrace(pods[..k]) + [PodDeleted(pods[k])]
  }

  /**
   * A restart handles a prefix of its pods completely: each is deleted only after the wait for the one before it
   * returned nil. It has no error exactly when that prefix is everything; otherwise the next pod was either refused
   * or deleted and its wait did not return nil, and nothing after it was touched.
   */
  lemma {:induction false} OneAtATime(
      pods: seq<Pod>, waitSecs: uint16, protected: set<string>, polls: seq<Poll>) returns (k: nat)
    ensures Stepwise(pods, waitSecs, protected, polls, Restart(pods, waitSecs, protected, polls), k)
    decreases |pods|
  {
    k := 0;
    if pods != [] && pods[0].name !in protected {
      FirstWait(pods, waitSecs, polls);
      var wait := Wait(pods[0], waitSecs, polls);
      if ReturnedNil(wait) {
        var n := OneAtATime(pods[1..], waitSecs, protected, polls[wait.polls..]);
        OneMore(pods[0], pods[1..], waitSecs, protected, polls, n);
        assert [pods[0]] + pods[1..] == pods;
        k := n + 1;
      }
    }
  }

  lemma FirstWait(pods: seq<Pod>, waitSecs: uint16, polls: seq<Poll>)
    requires pods != []
    ensures WaitAt(pods, waitSecs, polls, 0) == Wait(pods[0], waitSecs, polls)
  {
    assert pods[..0] == [] && polls[0..] == polls;
  }

  /** The waits after the first are those of a restart of the other pods on the answers left. */
  lemma LaterWait(p: Pod, rest: seq<Pod>, waitSecs: uint16, polls: seq<Poll>, i: nat)
    requires i < |rest|
    ensures WaitAt([p] + rest, waitSecs, polls, i + 1)
         == WaitAt(rest, waitSecs, polls[Wait(p, waitSecs, polls).polls..], i)
  {
    var pods, first := [p] + rest, Wait(p, waitSecs, polls).polls;
    assert pods[..i + 1][0] == p && pods[..i + 1][1..] == rest[..i];
    var later := Used(rest[..i], waitSecs, polls[first..]);
    assert polls[first..][later..] == polls[first + later..];
  }

  lemma RestartRecovered(p: Pod, rest: seq<Pod>, waitSecs: uint16, protected: set<string>, polls: seq<Poll>)
    requires p.name !in protected && ReturnedNil(Wait(p, waitSecs, polls))
    ensures Restart([p] + rest, waitSecs, protected, polls)
         == Restart(rest, waitSecs, protected,
             polls[Wait(p, waitSecs, polls).polls..]).After([PodDeleted(p), PodRecovered(p)])
  {
    assert ([p] + rest)[1..] == rest;
  }

  lemma TraceCons(p: Pod, rest: seq<Pod>)
    ensures CompleteTrace([p] + rest) == [PodDeleted(p), PodRecovered(p)] + CompleteTrace(rest)
  {
    assert ([p] + rest)[1..] == rest;
  }

  lemma OneMore(p: Pod, rest: seq<Pod>, waitSecs: uint16, protected: set<string>, polls: seq<Poll>, n: nat)
    requires p.name !in protected && ReturnedNil(Wait(p, waitSecs, polls))
    requires var left := polls[Wait(p, waitSecs, polls).polls..];
             Stepwise(rest, waitSecs, protected, left, Restart(rest, waitSecs, protected, left), n)
    ensures Stepwise([p] + rest, waitSecs, protected, polls, Restart([p] + rest, waitSecs, protected, polls), n + 1)
  {
    var pods := [p] + rest;
    RestartRecovered(p, rest, waitSecs, protected, polls);
    TraceCons(p, rest);
    TraceCons(p, rest[..n]);
    assert pods[..n + 1] == [p] + rest[..n];
    FirstWait(pods, waitSecs, polls);
    forall i | 0 <= i < n + 1 ensures ReturnedNil(WaitAt(pods, waitSecs, polls, i)) {
      if i > 0 { LaterWait(p, rest, waitSecs, polls, i - 1); }
    }
    if n < |rest| {
      LaterWait(p, rest, waitSecs, polls, n);
    }
  }

  /** The pods deleted in a trace, in order. */
  function Deleted(events: seq<Event>): seq<Pod> {
    if events == [] then []
    else if events[0].PodDeleted? then [events[0].pod] + Deleted(events[1..])
    else Deleted(events[1..])
  }

  lemma DeletedOfRecovered(p: Pod, events: seq<Event>)
    ensures Deleted([PodDeleted(p), PodRecovered(p)] + events) == [p] + Deleted(events)
  {
    assert ([PodDeleted(p), PodRecovered(p)] + events)[1..] == [PodRecovered(p)] + events;
    assert ([PodRecovered(p)] + events)[1..] == events;
  }

  lemma {:induction false} DeletedAppend(a: seq<Event>, b: seq<Event>)
    ensures Deleted(a + b) == Deleted(a) + Deleted(b)
    decreases |a|
  {
    if a == [] {
      assert a + b == b;
    } else {
      assert (a + b)[1..] == a[1..] + b;
      DeletedAppend(a[1..], b);
    }
  }

  lemma {:induction false} DeletedOfTrace(pods: seq<Pod>)
    ensures Deleted(CompleteTrace(pods)) == pods
    decreases |pods|
  {
    if pods != [] {
      DeletedOfTrace(pods[1..]);
      DeletedOfRecovered(pods[0], CompleteTrace(pods[1..]));
      assert [pods[0]] + pods[1..] == pods;
    }
  }

  /** The deleted pods are a prefix of the pods handed to the restart. */
  lemma DeletedIsPrefix(pods: seq<Pod>, waitSecs: uint16, protected: set<string>, polls: seq<Poll>)
    ensures Deleted(Restart(pods, waitSecs, protected, polls).events) <= pods
  {
    var k := OneAtATime(pods, waitSecs, protected, polls);
    var tail := if k < |pods| && pods[k].name !in protected then [PodDeleted(pods[k])] else [];
    DeletedOfTrace(pods[..k]);
    assert pods[..|pods|] == pods;
    assert CompleteTrace(pods[..k]) + [] == CompleteTrace(pods[..k]);
    DeletedAppend(CompleteTrace(pods[..k]), tail);
    DeletedTail(pods, k, tail);
  }

  lemma DeletedTail(pods: seq<Pod>, k: nat, tail: seq<Event>)
    requires k <= |pods| && (tail == [] || (k < |pods| && tail == [PodDeleted(pods[k])]))
    ensures pods[..k] + Deleted(tail) <= pods
  {
    if tail != [] {
      assert tail[1..] == [];
      assert Deleted(tail) == [pods[k]];
      assert pods[..k] + [pods[k]] == pods[..k + 1];
    }
  }
}
