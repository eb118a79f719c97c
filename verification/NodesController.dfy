/** The handlers of the nodes controller, each one pass over the persisted cache. */
module NodesController {
  import opened Common
  import opened NodeCache
  import opened NodeTermination

  datatype Node = Node(name: string, unschedulable: bool, taints: seq<string>)

  const UNSCHEDULABLE_TAINTS := ["ToBeDeletedByClusterAutoscaler"]

  predicate IsUnschedulable(node: Node) {
    node.unschedulable || exists i :: 0 <= i < |node.taints| && node.taints[i] in UNSCHEDULABLE_TAINTS
  }

  /** Cordoned by its specification, or about to be deleted by the cluster autoscaler. */
  lemma UnschedulableIff(node: Node)
    ensures IsUnschedulable(node) <==> node.unschedulable || "ToBeDeletedByClusterAutoscaler" in node.taints
  {
    assert UNSCHEDULABLE_TAINTS[0] == "ToBeDeletedByClusterAutoscaler";
  }

  function CordonedNames(nodes: seq<Node>): set<string> {
    set n | n in nodes && IsUnschedulable(n) :: n.name
  }

  function NodeNames(nodes: seq<Node>): set<string> {
    set n | n in nodes :: n.name
  }

  datatype OneAgentAnswer = Present(oneAgent: OneAgent) | Absent | Unreachable

  /** The API server, the Dynatrace API and the clock. Every call may fail; within a pass nothing else changes. */
  class Api {
    var persisted: Option<Contents>
    var nodes: seq<Node>
    var oneAgents: seq<OneAgent>
    var clock: Time
    /** Every attempt to send a termination event, in order. */
    var attempts: seq<Attempt>
    /** Without this no call fails. */
    const mayFail: bool

    constructor (persisted: Option<Contents>, nodes: seq<Node>, oneAgents: seq<OneAgent>, clock: Time, mayFail: bool)
      ensures this.persisted == persisted && this.nodes == nodes && this.oneAgents == oneAgents
      ensures this.clock == clock && attempts == [] && this.mayFail == mayFail
    {
      this.persisted, this.nodes, this.oneAgents := persisted, nodes, oneAgents;
      this.clock, attempts, this.mayFail := clock, [], mayFail;
    }

    /** Names are unique per kind. */
    ghost predicate Valid()
      reads this
    {
      && (forall i, j :: 0 <= i < j < |nodes| ==> nodes[i].name != nodes[j].name)
      && (forall i, j :: 0 <= i < j < |oneAgents| ==> oneAgents[i].name != oneAgents[j].name)
    }

    ghost function Stored(): Contents
      reads this
    {
      if persisted.Some? then persisted.value else map[]
    }

    method Now() returns (t: Time)
      modifies this`clock
      ensures old(clock) <= t == clock
    {
      var elapsed: int := *;
      if elapsed > 0 {
        clock := clock + elapsed;
      }
      t := clock;
    }

    method Try() returns (ok: bool)
      ensures !mayFail ==> ok
    {
      ok := *;
      ok := ok || !mayFail;
    }

    method GetOneAgent(name: string) returns (answer: OneAgentAnswer)
      ensures answer.Present? ==> answer.oneAgent in oneAgents && answer.oneAgent.name == name
      ensures answer.Absent? ==> !Exists(oneAgents, name)
      ensures !mayFail ==> !answer.Unreachable?
    {
      var ok := Try();
      if !ok {
        return Unreachable;
      }
      for i := 0 to |oneAgents|
        invariant forall j :: 0 <= j < i ==> oneAgents[j].name != name
      {
        if oneAgents[i].name == name {
          return Present(oneAgents[i]);
        }
      }
      return Absent;
    }

    /** The node of that name; None when it is unknown or the call fails. */
    method GetNode(name: string) returns (node: Option<Node>)
      ensures node.Some? ==> node.value in nodes && node.value.name == name
      ensures !mayFail && node.None? ==> name !in NodeNames(nodes)
    {
      var ok := Try();
      if ok {
        for i := 0 to |nodes|
          invariant forall j :: 0 <= j < i ==> nodes[j].name != name
        {
          if nodes[i].name == name {
            return Some(nodes[i]);
          }
        }
      }
      return None;
    }

    method SendEvent(node: string, ipAddress: string, previousMark: Time, at: Time) returns (sent: bool)
      modifies this`attempts
      ensures !mayFail ==> sent
      ensures attempts == old(attempts) + [Attempt(node, ipAddress, previousMark, at, sent)]
    {
      sent := Try();
      attempts := attempts + [Attempt(node, ipAddress, previousMark, at, sent)];
    }
  }

  /** info' covers at least the time and the attempts of info. */
  predicate Grows(info: PassInfo, info': PassInfo) {
    && info'.start <= info.start && info.end <= info'.end && info'.oneAgents == info.oneAgents
    && forall i :: 0 <= i < |info.attempts| ==> info.attempts[i] in info'.attempts
  }

  lemma LegalNodeGrows(info: PassInfo, info': PassInfo, node: string, before: Option<Raw>, after: Option<Raw>)
    requires Grows(info, info') && LegalNode(info, node, before, after)
    ensures LegalNode(info', node, before, after)
  {
    assert forall t :: Within(t, info) ==> Within(t, info');
    assert forall t :: AttemptedAt(info, node, t) ==> AttemptedAt(info', node, t);
    if before.Some? && after.None? {
      assert AttemptFor(info, node, true) ==> AttemptFor(info', node, true);
      assert UnseenForAnHour(before.value.entry.lastSeen, info) ==> UnseenForAnHour(before.value.entry.lastSeen, info');
      assert MarkedWithinAnHour(before.value.entry.lastMarked, info) ==>
        MarkedWithinAnHour(before.value.entry.lastMarked, info');
    }
  }

  // ---------- effects of the building blocks ----------

  /** Marking: not due, or the entry gets the mark of the one attempt made. */
  ghost predicate Marked(
      node: string, ipAddress: string, before: Contents, after: Contents, info: PassInfo, ok: bool)
  {
    if !Decodes(before, node) then !ok && after == before && info.attempts == []
    else
      var e := before[node].entry;
      || (ok && after == before && info.attempts == [] && MarkedWithinAnHour(e.lastMarked, info))
      || (&& |info.attempts| == 1
          && info.attempts[0].node == node && info.attempts[0].ipAddress == ipAddress
          && info.attempts[0].previousMark == e.lastMarked
          && info.attempts[0].sent == ok
          && e.lastMarked + HOUR < info.attempts[0].at && Within(info.attempts[0].at, info)
          && after == before[node := Encoded(e.(lastMarked := info.attempts[0].at))])
  }

  /** Handling an unschedulable node: only its own entry changes, and only if some OneAgent claims it. */
  ghost predicate Cordoned(node: string, before: Contents, after: Contents, info: PassInfo, ok: bool) {
    && (ok ==> CordonedAreMarked(info, {node}, after))
    && (forall n :: n != node ==> At(after, n) == At(before, n))
    && (!Claims(info.oneAgents, node) ==> after == before && info.attempts == [])
    && (node in before ==> node in after && (before[node].Malformed? ==> after[node] == before[node]))
    && (forall i :: 0 <= i < |info.attempts| ==>
          && info.attempts[i].node == node && node in after
          && ClaimedAddress(info.oneAgents, node, info.attempts[i].ipAddress))
    && EntryStep(info, At(before, node), At(after, node))
    && OneAttemptPerNode(info.attempts) && AllFaithful(info, before) && AllRecorded(info, after)
    && LegalNode(info, node, At(before, node), At(after, node))
  }

  /** Before marking, the entry is the one found or a fresh one. */
  ghost predicate Entered(node: string, before: Contents, cur: Contents, info: PassInfo) {
    if node in before then cur == before && Decodes(before, node)
    else Decodes(cur, node) && cur == before[node := cur[node]] && ClaimedEntry(info.oneAgents, node, cur[node].entry)
         && cur[node].entry.lastMarked == ZERO_TIME && Within(cur[node].entry.lastSeen, info)
  }

  lemma MarkedIsCordoned(
      node: string, ipAddress: string, before: Contents, cur: Contents, after: Contents, step: PassInfo,
      whole: PassInfo, ok: bool)
    requires whole.start <= step.start && whole.(start := step.start) == step
    requires Claims(whole.oneAgents, node) && ClaimedAddress(whole.oneAgents, node, ipAddress)
    requires Entered(node, before, cur, whole)
    requires Marked(node, ipAddress, cur, after, step, ok)
    ensures Cordoned(node, before, after, whole, ok)
  {
    assert forall t :: Within(t, step) ==> Within(t, whole);
    if whole.attempts != [] {
      assert AttemptedAt(whole, node, whole.attempts[0].at);
      assert MarkedWithinAnHour(whole.attempts[0].at, whole);
    }
  }

  /** Removing a node: it leaves for a justified reason, or stays because its entry or its event failed. */
  ghost predicate Removed(node: string, before: Contents, after: Contents, info: PassInfo, ok: bool) {
    && (forall n :: n != node ==> At(after, n) == At(before, n))
    && (forall i :: 0 <= i < |info.attempts| ==>
          && info.attempts[i].node == node && info.attempts[i].sent == ok
          && EntryDue(info.start, info.oneAgents, before, info.attempts[i]))
    && OneAttemptPerNode(info.attempts) && AllFaithful(info, before) && AllRecorded(info, after)
    && LegalNode(info, node, At(before, node), At(after, node))
    && (ok <==> node !in after)
  }

  lemma JustifiedIsRemoved(node: string, before: Contents, info: PassInfo)
    requires node in before && info.attempts == [] && RemovalJustified(info, node, before[node])
    ensures Removed(node, before, before - {node}, info, true)
  {
  }

  /**
   * What marking leads to: the entry may go after a sent event or a recent mark, and keeps the mark of an unsent one.
   */
  lemma MarkedThenRemoved(node: string, before: Contents, marked: Contents, step: PassInfo, whole: PassInfo, ok: bool)
    requires whole.start <= step.start && whole.(start := step.start) == step
    requires Decodes(before, node) && Marked(node, before[node].entry.ipAddress, before, marked, step, ok)
    requires var e := before[node].entry;
             e.ipAddress != "" && Exists(whole.oneAgents, e.instance) && whole.start - e.lastSeen <= HOUR
    ensures Removed(node, before, if ok then marked - {node} else marked, whole, ok)
    ensures !ok ==> AttemptFor(whole, node, false) && KeptAfterFailure(whole, node, before[node], marked[node])
  {
    assert forall t :: Within(t, step) ==> Within(t, whole);
    if whole.attempts != [] {
      assert whole.attempts[0].node == node && whole.attempts[0].sent == ok;
      assert AttemptedAt(whole, node, whole.attempts[0].at);
      assert ok ==> AttemptFor(whole, node, true);
    } else {
      assert MarkedWithinAnHour(before[node].entry.lastMarked, whole);
    }
  }

  // ---------- the three loops of a full resync ----------

  /** A stretch of a pass: from where the attempts and the clock stood to where they stand now. */
  predicate Follows(info: PassInfo, step: PassInfo, info': PassInfo) {
    && info'.start == info.start && info.end == step.start && step.end == info'.end && step.start <= step.end
    && info'.oneAgents == info.oneAgents == step.oneAgents
    && info'.attempts == info.attempts + step.attempts
    && info.start <= info.end
  }

  /** While unschedulable nodes are marked: nothing leaves, and only claimed nodes already visited change. */
  ghost predicate AfterCordons(info: PassInfo, done: set<string>, before: Contents, cur: Contents) {
    && (forall n :: LegalNode(info, n, At(before, n), At(cur, n)))
    && (forall n :: n in before ==> n in cur && (before[n].Malformed? ==> cur[n] == before[n]))
    && (forall n :: n !in done || !Claims(info.oneAgents, n) ==> At(cur, n) == At(before, n))
    && (forall i :: 0 <= i < |info.attempts| ==> info.attempts[i].node in done && info.attempts[i].node in cur)
    && OneAttemptPerNode(info.attempts) && AllFaithful(info, before) && AllRecorded(info, cur)
  }

  /** The attempts of a step about one node extend those made so far about others. */
  lemma AttemptsExtend(info: PassInfo, step: PassInfo, info': PassInfo, node: string,
                       before: Contents, cur: Contents, next: Contents)
    requires Follows(info, step, info')
    requires AllFaithful(info, before) && AllRecorded(info, cur) && OneAttemptPerNode(info.attempts)
    requires AllFaithful(step, cur) && AllRecorded(step, next) && OneAttemptPerNode(step.attempts)
    requires forall i :: 0 <= i < |info.attempts| ==> info.attempts[i].node != node
    requires forall i :: 0 <= i < |step.attempts| ==> step.attempts[i].node == node
    requires At(cur, node) == At(before, node) && forall n :: n != node ==> At(next, n) == At(cur, n)
    ensures AllFaithful(info', before) && AllRecorded(info', next) && OneAttemptPerNode(info'.attempts)
  {
    var k := |info.attempts|;
    forall i | 0 <= i < |info'.attempts|
      ensures Faithful(info'.attempts[i], info', before) && RecordedIn(info'.attempts[i], next)
    {
      if i < k {
        assert info'.attempts[i] == info.attempts[i];
        assert Faithful(info.attempts[i], info, before) && RecordedIn(info.attempts[i], cur);
        assert At(next, info.attempts[i].node) == At(cur, info.attempts[i].node);
      } else {
        assert info'.attempts[i] == step.attempts[i - k];
        assert Faithful(step.attempts[i - k], step, cur) && RecordedIn(step.attempts[i - k], next);
      }
    }
  }

  /** Marks stay recent while a pass goes on, as long as they are kept. */
  lemma MarkedLater(info: PassInfo, info': PassInfo, cordoned: set<string>, cur: Contents, next: Contents)
    requires Grows(info, info')
    requires CordonedAreMarked(info, cordoned, cur)
    requires forall n ::
      n in cordoned && Decodes(cur, n) ==> Decodes(next, n) && MarkOrZero(next, n) == MarkOrZero(cur, n)
    ensures CordonedAreMarked(info', cordoned, next)
  {
    assert forall t :: Within(t, info) ==> Within(t, info');
  }

  lemma NamesNext(nodes: seq<Node>, i: nat)
    requires i < |nodes| && forall j, k :: 0 <= j < k < |nodes| ==> nodes[j].name != nodes[k].name
    ensures NodeNames(nodes[..i + 1]) == NodeNames(nodes[..i]) + {nodes[i].name}
    ensures CordonedNames(nodes[..i + 1]) == CordonedNames(nodes[..i]) + CordonedNames([nodes[i]])
    ensures CordonedNames([nodes[i]]) <= CordonedNames(nodes) && CordonedNames(nodes[..i]) <= CordonedNames(nodes)
    ensures nodes[i].name !in NodeNames(nodes[..i]) && CordonedNames(nodes[..i]) <= NodeNames(nodes[..i])
  {
    assert forall n :: n in nodes[..i + 1] <==> n in nodes[..i] || n == nodes[i];
  }

  lemma CordonStep(info: PassInfo, step: PassInfo, info': PassInfo, done: set<string>, node: string,
                   before: Contents, cur: Contents, next: Contents, ok: bool)
    requires Follows(info, step, info') && node !in done
    requires AfterCordons(info, done, before, cur) && Cordoned(node, cur, next, step, ok)
    ensures AfterCordons(info', done + {node}, before, next)
  {
    AttemptsExtend(info, step, info', node, before, cur, next);
    forall i | 0 <= i < |info'.attempts|
      ensures info'.attempts[i].node in done + {node} && info'.attempts[i].node in next {
      var k := |info.attempts|;
      if i < k {
        assert info'.attempts[i] == info.attempts[i];
        assert At(next, info.attempts[i].node) == At(cur, info.attempts[i].node);
      } else {
        assert info'.attempts[i] == step.attempts[i - k];
      }
    }
    forall n ensures LegalNode(info', n, At(before, n), At(next, n)) {
      if n == node {
        assert At(cur, n) == At(before, n);
        LegalNodeGrows(step, info', n, At(before, n), At(next, n));
      } else {
        LegalNodeGrows(info, info', n, At(before, n), At(next, n));
      }
    }
    forall n | n in before ensures n in next && (before[n].Malformed? ==> next[n] == before[n]) {
      assert At(next, n) == At(cur, n) || n == node;
    }
  }

  lemma CordonStepMarked(
      info: PassInfo, step: PassInfo, info': PassInfo, done: set<string>, cordoned: set<string>, node: string,
      before: Contents, cur: Contents, next: Contents, ok: bool)
    requires Follows(info, step, info') && node !in done && cordoned <= done
    requires AfterCordons(info, done, before, cur) && Cordoned(node, cur, next, step, ok)
    requires CordonedAreMarked(info, cordoned, cur)
    ensures AfterCordons(info', done + {node}, before, next)
    ensures ok ==> CordonedAreMarked(info', cordoned + {node}, next)
  {
    CordonStep(info, step, info', done, node, before, cur, next, ok);
    if ok {
      assert Grows(info, info') && Grows(step, info');
      assert forall n :: n in cordoned ==> At(next, n) == At(cur, n);
      MarkedLater(info, info', cordoned, cur, next);
      MarkedLater(step, info', {node}, next, next);
    }
  }

  /** The entry of a node as the second loop leaves it. */
  predicate Refreshed(info: PassInfo, mid: Contents, cur: Contents, n: string) {
    && Decodes(cur, n) && ClaimedEntry(info.oneAgents, n, cur[n].entry) && Within(cur[n].entry.lastSeen, info)
    && cur[n].entry.lastMarked == MarkOrZero(mid, n)
  }

  ghost predicate AfterClaims(info: PassInfo, handled: set<string>, mid: Contents, cur: Contents) {
    && (forall n :: n in handled ==> Refreshed(info, mid, cur, n))
    && (forall n :: n !in handled ==> At(cur, n) == At(mid, n))
  }

  /** What the first two loops amount to. */
  ghost predicate Updated(info: PassInfo, cluster: set<string>, before: Contents, cur: Contents) {
    && AfterCordonsOnly(info, cluster, before, cur)
    && (forall n :: n in cluster && Claims(info.oneAgents, n) ==>
          Decodes(cur, n) && ClaimedEntry(info.oneAgents, n, cur[n].entry) && Within(cur[n].entry.lastSeen, info)
          && MarkStep(info, n, MarkOrZero(before, n), cur[n].entry.lastMarked))
  }

  ghost predicate AfterCordonsOnly(info: PassInfo, cluster: set<string>, before: Contents, cur: Contents) {
    && (forall n :: LegalNode(info, n, At(before, n), At(cur, n)))
    && (forall n :: n in before ==> n in cur)
    && (forall n :: n !in cluster || !Claims(info.oneAgents, n) ==> At(cur, n) == At(before, n))
    && (forall i :: 0 <= i < |info.attempts| ==> info.attempts[i].node in cluster)
    && OneAttemptPerNode(info.attempts) && AllFaithful(info, before) && AllRecorded(info, cur)
  }

  lemma ClaimsAfterCordons(info: PassInfo, info': PassInfo, cluster: set<string>, handled: set<string>,
                           before: Contents, mid: Contents, cur: Contents)
    requires Grows(info, info') && info'.attempts == info.attempts
    requires AfterCordons(info, cluster, before, mid) && AfterClaims(info', handled, mid, cur)
    requires forall n :: n in handled <==> n in cluster && Claims(info.oneAgents, n)
    ensures Updated(info', cluster, before, cur)
  {
    forall n ensures LegalNode(info', n, At(before, n), At(cur, n)) {
      assert LegalNode(info, n, At(before, n), At(mid, n));
      LegalNodeGrows(info, info', n, At(before, n), At(mid, n));
    }
    forall n | n in handled ensures MarkStep(info', n, MarkOrZero(before, n), cur[n].entry.lastMarked) {
      assert LegalNode(info, n, At(before, n), At(mid, n));
    }
    forall n | n in before ensures n in cur {
      assert At(cur, n) == At(mid, n) || n in handled;
    }
  }

  /** While nodes outside the cluster are removed: those visited are gone unless their removal failed. */
  ghost predicate AfterRemovals(info: PassInfo, cluster: set<string>, gone: set<string>,
                                before: Contents, updated: Contents, cur: Contents) {
    && (forall n :: LegalNode(info, n, At(before, n), At(cur, n)))
    && (forall n :: n !in gone ==> At(cur, n) == At(updated, n))
    && (forall n :: n in gone ==> (n in cur <==> RemovalFailed(info, before, n)))
    && (forall n :: n in gone && n in cur ==> KeptAfterFailure(info, n, before[n], cur[n]))
    && (forall i :: 0 <= i < |info.attempts| ==> info.attempts[i].node in cluster || info.attempts[i].node in gone)
    && OneAttemptPerNode(info.attempts) && AllFaithful(info, before) && AllRecorded(info, cur)
  }

  lemma KeptGrows(info: PassInfo, info': PassInfo, node: string, before: Raw, after: Raw)
    requires Grows(info, info') && KeptAfterFailure(info, node, before, after)
    ensures KeptAfterFailure(info', node, before, after)
  {
    if before.Encoded? {
      var i :| 0 <= i < |info.attempts| && info.attempts[i].node == node && !info.attempts[i].sent
               && after == Encoded(before.entry.(lastMarked := info.attempts[i].at));
      assert info.attempts[i] in info'.attempts;
    }
  }

  lemma RemovalStep(
      info: PassInfo, step: PassInfo, info': PassInfo, cluster: set<string>, gone: set<string>, node: string,
                    before: Contents, updated: Contents, cur: Contents, next: Contents, ok: bool)
    requires Follows(info, step, info') && node !in gone && node !in cluster
    requires node in before && At(updated, node) == At(before, node)
    requires AfterRemovals(info, cluster, gone, before, updated, cur)
    requires Removed(node, cur, next, step, ok)
    requires !ok ==> before[node].Malformed? || AttemptFor(step, node, false)
    requires !ok ==> KeptAfterFailure(step, node, before[node], next[node])
    requires before[node].Malformed? ==> !ok
    ensures AfterRemovals(info', cluster, gone + {node}, before, updated, next)
  {
    AttemptsExtend(info, step, info', node, before, cur, next);
    forall n ensures LegalNode(info', n, At(before, n), At(next, n)) {
      if n == node {
        LegalNodeGrows(step, info', n, At(before, n), At(next, n));
      } else {
        LegalNodeGrows(info, info', n, At(before, n), At(next, n));
      }
    }
    forall n | n in gone + {node} ensures n in next <==> RemovalFailed(info', before, n) {
      AttemptsSplit(info, step, info', n);
      assert n == node || At(next, n) == At(cur, n);
    }
    forall n | n in gone + {node} && n in before && n in next ensures KeptAfterFailure(info', n, before[n], next[n]) {
      if n == node {
        KeptGrows(step, info', n, before[n], next[n]);
      } else {
        assert At(next, n) == At(cur, n);
        KeptGrows(info, info', n, before[n], cur[n]);
      }
    }
  }

  lemma AttemptsSplit(info: PassInfo, step: PassInfo, info': PassInfo, node: string)
    requires Follows(info, step, info')
    ensures AttemptFor(info', node, false) <==> AttemptFor(info, node, false) || AttemptFor(step, node, false)
  {
    var k := |info.attempts|;
    assert forall i :: 0 <= i < k ==> info'.attempts[i] == info.attempts[i];
    assert forall i :: 0 <= i < |step.attempts| ==> info'.attempts[k + i] == step.attempts[i];
    if AttemptFor(info', node, false) {
      var i :| 0 <= i < |info'.attempts| && info'.attempts[i].node == node && info'.attempts[i].sent == false;
      if i >= k {
        assert step.attempts[i - k] == info'.attempts[i];
      }
    }
  }

  /** Attempts for nodes outside the cluster whose entries give a reason. */
  predicate DueOutside(
      attempts: seq<Attempt>, start: Time, oneAgents: seq<OneAgent>, cluster: set<string>, before: Contents)
  {
    forall i :: 0 <= i < |attempts| ==> attempts[i].node !in cluster && EntryDue(start, oneAgents, before, attempts[i])
  }

  /** Attempts for cordoned nodes, at an address that a OneAgent reports. */
  predicate ForCordoned(attempts: seq<Attempt>, oneAgents: seq<OneAgent>, cordoned: set<string>) {
    forall i :: 0 <= i < |attempts| ==>
      attempts[i].node in cordoned && ClaimedAddress(oneAgents, attempts[i].node, attempts[i].ipAddress)
  }

  /** A full resync attempts events only for cordoned nodes and for nodes outside the cluster. */
  predicate ResyncAttempts(
      attempts: seq<Attempt>, start: Time, oneAgents: seq<OneAgent>, nodes: seq<Node>, before: Contents)
  {
    exists k :: 0 <= k <= |attempts|
      && ForCordoned(attempts[..k], oneAgents, CordonedNames(nodes))
      && DueOutside(attempts[k..], start, oneAgents, NodeNames(nodes), before)
  }

  lemma NoneAfter(attempts: seq<Attempt>, start: Time, oneAgents: seq<OneAgent>, nodes: seq<Node>, before: Contents)
    requires ForCordoned(attempts, oneAgents, CordonedNames(nodes))
    ensures ResyncAttempts(attempts, start, oneAgents, nodes, before)
  {
    assert attempts[..|attempts|] == attempts && attempts[|attempts|..] == [];
  }

  lemma ResyncSplit(earlier: seq<Attempt>, mid: seq<Attempt>, all: seq<Attempt>, start: Time, oneAgents: seq<OneAgent>,
                    nodes: seq<Node>, before: Contents)
    requires earlier <= mid <= all
    requires ForCordoned(mid[|earlier|..], oneAgents, CordonedNames(nodes))
    requires DueOutside(all[|mid|..], start, oneAgents, NodeNames(nodes), before)
    ensures ResyncAttempts(all[|earlier|..], start, oneAgents, nodes, before)
  {
    var k := |mid| - |earlier|;
    assert all[|earlier|..][..k] == mid[|earlier|..] && all[|earlier|..][k..] == all[|mid|..];
  }

  lemma DueBoth(earlier: seq<Attempt>, mid: seq<Attempt>, all: seq<Attempt>, start: Time, oneAgents: seq<OneAgent>,
                cluster: set<string>, before: Contents)
    requires earlier <= mid <= all
    requires DueOutside(mid[|earlier|..], start, oneAgents, cluster, before)
    requires DueOutside(all[|mid|..], start, oneAgents, cluster, before)
    ensures DueOutside(all[|earlier|..], start, oneAgents, cluster, before)
  {
    var k := |earlier|;
    forall i | 0 <= i < |all[k..]|
      ensures all[k..][i].node !in cluster && EntryDue(start, oneAgents, before, all[k..][i])
    {
      if k + i < |mid| {
        assert all[k..][i] == mid[k..][i];
      } else {
        assert all[k..][i] == all[|mid|..][k + i - |mid|];
      }
    }
  }

  lemma ForCordonedWithin(attempts: seq<Attempt>, oneAgents: seq<OneAgent>, cordoned: set<string>, more: set<string>)
    requires ForCordoned(attempts, oneAgents, cordoned) && cordoned <= more
    ensures ForCordoned(attempts, oneAgents, more)
  {
  }

  lemma ForCordonedBoth(earlier: seq<Attempt>, mid: seq<Attempt>, all: seq<Attempt>, oneAgents: seq<OneAgent>,
                        cordoned: set<string>, more: set<string>)
    requires earlier <= mid <= all
    requires ForCordoned(mid[|earlier|..], oneAgents, cordoned) && ForCordoned(all[|mid|..], oneAgents, more)
    ensures ForCordoned(all[|earlier|..], oneAgents, cordoned + more)
  {
    var k := |earlier|;
    forall i | 0 <= i < |all[k..]|
      ensures all[k..][i].node in cordoned + more
              && ClaimedAddress(oneAgents, all[k..][i].node, all[k..][i].ipAddress)
    {
      if k + i < |mid| {
        assert all[k..][i] == mid[k..][i];
      } else {
        assert all[k..][i] == all[|mid|..][k + i - |mid|];
      }
    }
  }

  /** Of the keys outside the cluster, all but those left have been visited. */
  ghost predicate Visited(all: set<string>, cluster: set<string>, left: set<string>, gone: set<string>) {
    left <= all && gone == all - cluster - left
  }

  lemma VisitedNext(all: set<string>, cluster: set<string>, left: set<string>, gone: set<string>, node: string)
    requires Visited(all, cluster, left, gone) && node in left
    ensures Visited(all, cluster, left - {node}, gone + ({node} - cluster))
    ensures node !in gone && node in all
  {
  }

  datatype Event = NodeUpdated(node: string) | NodeDeleted(node: string) | Tick

  /** An event and the cluster in which it is handled. */
  datatype Step = Step(event: Event, nodes: seq<Node>, oneAgents: seq<OneAgent>) {
    /** Names are unique per kind. */
    ghost predicate Valid() {
      && (forall i, j :: 0 <= i < j < |nodes| ==> nodes[i].name != nodes[j].name)
      && (forall i, j :: 0 <= i < j < |oneAgents| ==> oneAgents[i].name != oneAgents[j].name)
    }
  }

  class ReconcileNodes {
    const api: Api
    /** Whether the operator runs outside the cluster, where the ConfigMap gets no owner. */
    const local: bool

    constructor (api: Api, local: bool)
      ensures this.api == api && this.local == local
    {
      this.api, this.local := api, local;
    }

    ghost function Info(start: Time, attemptsBefore: nat): PassInfo
      requires attemptsBefore <= |api.attempts|
      reads api
    {
      PassInfo(start, api.clock, api.oneAgents, api.attempts[attemptsBefore..])
    }

    method GetCache() returns (cache: Option<Cache>)
      ensures !api.mayFail ==> cache.Some?
      ensures cache.Some? ==> fresh(cache.value) && cache.value.Entries() == api.Stored()
                              && cache.value.FlagsChanges(api.Stored())
                              && cache.value.Changed() == api.persisted.None?
    {
      var ok := api.Try();
      if !ok {
        return None;
      }
      if api.persisted.Some? {
        // An empty map does not survive the API server: it comes back as nil.
        var c := new Cache(if api.persisted.value == map[] then None else api.persisted, false);
        return Some(c);
      }
      if !local {
        ok := api.Try();
        if !ok {
          return None;
        }
      }
      var c := new Cache(Some(map[]), true);
      return Some(c);
    }

    method UpdateCache(c: Cache) returns (ok: bool)
      requires c.FlagsChanges(api.Stored())
      modifies api`persisted
      ensures if ok then api.Stored() == c.Entries() else api.persisted == old(api.persisted)
      ensures !api.mayFail || !c.Changed() ==> ok
    {
      if !c.Changed() {
        return true;
      }
      ok := api.Try();
      if ok {
        api.persisted := Some(c.Entries());
      }
    }

    method MarkForTermination(c: Cache, ipAddress: string, node: string) returns (ok: bool)
      modifies c, api`clock, api`attempts
      ensures old(api.clock) <= api.clock && old(api.attempts) <= api.attempts
      ensures Marked(node, ipAddress, old(c.Entries()), c.Entries(), Info(old(api.clock), |old(api.attempts)|), ok)
      ensures !api.mayFail && Decodes(old(c.Entries()), node) ==> ok
      ensures !c.Changed() ==> !old(c.Changed()) && c.Entries() == old(c.Entries())
    {
      var cached := c.Get(node);
      if !cached.Found? {
        return false;
      }
      var e := cached.entry;
      var now := api.Now();
      if !(e.lastMarked + HOUR < now) {
        assert now <= e.lastMarked + HOUR && Within(now, Info(old(api.clock), |old(api.attempts)|));
        return true;
      }
      var mark := api.Now();
      c.Set(node, e.(lastMarked := mark));
      ok := api.SendEvent(node, ipAddress, e.lastMarked, mark);
    }

    /** The first OneAgent in the list that has an instance on the node. */
    method DetermineOneAgentForNode(node: string) returns (claimant: Option<OneAgent>)
      ensures claimant.None? <==> !Claims(api.oneAgents, node)
      ensures claimant.Some? ==> claimant.value in api.oneAgents && node in claimant.value.instances
    {
      for i := 0 to |api.oneAgents|
        invariant forall j :: 0 <= j < i ==> node !in api.oneAgents[j].instances
      {
        if node in api.oneAgents[i].instances {
          return Some(api.oneAgents[i]);
        }
      }
      return None;
    }

    method ReconcileUnschedulableNode(node: Node, c: Cache) returns (ok: bool)
      modifies c, api`clock, api`attempts
      ensures old(api.clock) <= api.clock && old(api.attempts) <= api.attempts
      ensures Cordoned(node.name, old(c.Entries()), c.Entries(), Info(old(api.clock), |old(api.attempts)|), ok)
      ensures !api.mayFail && !ok ==> Blocked(api.oneAgents, {node.name}, old(c.Entries()))
      ensures !c.Changed() ==> !old(c.Changed()) && c.Entries() == old(c.Entries())
    {
      var listed := api.Try();
      if !listed {
        return false;
      }
      var claimant := DetermineOneAgentForNode(node.name);
      if claimant.None? {
        return true;
      }
      var oneAgent := claimant.value;
      var ip := oneAgent.instances[node.name];
      var cached := c.Get(node.name);
      if cached.NotFound? {
        var now := api.Now();
        c.Set(node.name, CacheEntry(oneAgent.name, ip, now, ZERO_TIME));
        assert ClaimedEntry(api.oneAgents, node.name, CacheEntry(oneAgent.name, ip, now, ZERO_TIME));
      } else if cached.Corrupt? {
        return false;
      }
      ghost var now, attempts, cur := api.clock, |api.attempts|, c.Entries();
      ok := MarkForTermination(c, ip, node.name);
      MarkedIsCordoned(node.name, ip, old(c.Entries()), cur, c.Entries(),
        Info(now, attempts), Info(old(api.clock), |old(api.attempts)|), ok);
    }

    /** A missing table of OneAgents stands for asking the API server. */
    method RemoveNode(c: Cache, node: string, oas: Option<map<string, OneAgent>>) returns (ok: bool)
      requires oas.Some? ==> forall name :: name in oas.value <==> Exists(api.oneAgents, name)
      modifies c, api`clock, api`attempts
      ensures old(api.clock) <= api.clock && old(api.attempts) <= api.attempts
      ensures var info := Info(old(api.clock), |old(api.attempts)|);
              && (node !in old(c.Entries()) ==> ok && info.attempts == [])
              && Removed(node, old(c.Entries()), c.Entries(), info, ok)
              && (!ok && oas.Some? ==>
                    && (old(c.Entries())[node].Malformed? || AttemptFor(info, node, false))
                    && KeptAfterFailure(info, node, old(c.Entries())[node], c.Entries()[node]))
              && (node in old(c.Entries()) && old(c.Entries())[node].Malformed? ==> !ok)
              && (!api.mayFail && !ok ==> Garbled(old(c.Entries()), node))
      ensures !c.Changed() ==> !old(c.Changed()) && c.Entries() == old(c.Entries())
    {
      var cached := c.Get(node);
      if cached.NotFound? {
        return true;
      } else if cached.Corrupt? {
        return false;
      }
      ghost var before := c.Entries();
      var e := cached.entry;
      var now := api.Now();
      ghost var info := Info(old(api.clock), |old(api.attempts)|);
      if now - e.lastSeen > HOUR {
        assert Within(now, info) && UnseenForAnHour(e.lastSeen, info);
      } else if e.ipAddress != "" {
        var answer: OneAgentAnswer;
        if oas.None? {
          answer := api.GetOneAgent(e.instance);
        } else if e.instance in oas.value {
          answer := Present(oas.value[e.instance]);
        } else {
          answer := Absent;
        }
        if answer.Unreachable? {
          return false;
        }
        if !answer.Absent? {
          ok := NotifyAndRemove(c, node, e, old(api.clock), |old(api.attempts)|);
          return;
        }
      }
      JustifiedIsRemoved(node, before, info);
      c.Delete(node);
      return true;
    }

    /** The OneAgent of the entry exists: the entry leaves once its event is sent or was attempted within the hour. */
    method NotifyAndRemove(c: Cache, node: string, e: CacheEntry, ghost start: Time, ghost from: nat) returns (ok: bool)
      requires At(c.Entries(), node) == Some(Encoded(e)) && start <= api.clock && from == |api.attempts|
      requires e.ipAddress != "" && Exists(api.oneAgents, e.instance) && start - e.lastSeen <= HOUR
      modifies c, api`clock, api`attempts
      ensures old(api.clock) <= api.clock && old(api.attempts) <= api.attempts
      ensures Removed(node, old(c.Entries()), c.Entries(), Info(start, from), ok)
      ensures !api.mayFail ==> ok
      ensures !ok ==> AttemptFor(Info(start, from), node, false)
                      && KeptAfterFailure(Info(start, from), node, old(c.Entries())[node], c.Entries()[node])
      ensures !c.Changed() ==> !old(c.Changed()) && c.Entries() == old(c.Entries())
    {
      ok := MarkForTermination(c, e.ipAddress, node);
      MarkedThenRemoved(node, old(c.Entries()), c.Entries(), Info(old(api.clock), from), Info(start, from), ok);
      if ok {
        c.Delete(node);
      }
    }

    // ---------- the three handlers ----------

    method OnUpdate(node: string) returns (ok: bool)
      requires api.Valid()
      modifies api
      ensures api.oneAgents == old(api.oneAgents) && api.nodes == old(api.nodes) && old(api.attempts) <= api.attempts
      ensures LegalPass(Info(old(api.clock), |old(api.attempts)|), old(api.Stored()), api.Stored())
      ensures ok && node in CordonedNames(api.nodes) ==>
                CordonedAreMarked(Info(old(api.clock), |old(api.attempts)|), {node}, api.Stored())
      ensures !ok ==> api.persisted == old(api.persisted)
      ensures !api.mayFail ==> (ok <==> Succeeds(NodeUpdated(node), api.oneAgents, api.nodes, old(api.Stored())))
      ensures ForCordoned(api.attempts[|old(api.attempts)|..], api.oneAgents, CordonedNames(api.nodes) * {node})
      ensures UpdatesOnly(Info(old(api.clock), |old(api.attempts)|), node, CordonedNames(api.nodes), old(api.Stored()),
        api.Stored())
    {
      var cache := GetCache();
      if cache.None? {
        return false;
      }
      var c := cache.value;
      var found := api.GetNode(node);
      if found.None? {
        return false;
      }
      if IsUnschedulable(found.value) {
        ok := ReconcileUnschedulableNode(found.value, c);
        if !ok {
          return false;
        }
      }
      ok := UpdateCache(c);
    }

    method OnDeletion(node: string) returns (ok: bool)
      requires api.Valid()
      modifies api
      ensures api.oneAgents == old(api.oneAgents) && api.nodes == old(api.nodes) && old(api.attempts) <= api.attempts
      ensures LegalPass(Info(old(api.clock), |old(api.attempts)|), old(api.Stored()), api.Stored())
      ensures if ok then node !in api.Stored() else api.persisted == old(api.persisted)
      ensures !api.mayFail ==> (ok <==> Succeeds(NodeDeleted(node), api.oneAgents, api.nodes, old(api.Stored())))
      ensures forall n :: n != node ==> At(api.Stored(), n) == At(old(api.Stored()), n)
      ensures forall i :: |old(api.attempts)| <= i < |api.attempts| ==>
                api.attempts[i].node == node
                && EntryDue(old(api.clock), api.oneAgents, old(api.Stored()), api.attempts[i])
    {
      var cache := GetCache();
      if cache.None? {
        return false;
      }
      var c := cache.value;
      ok := RemoveNode(c, node, None);
      if !ok {
        return false;
      }
      ok := UpdateCache(c);
    }

    method OneAgentTable() returns (oas: map<string, OneAgent>)
      requires api.Valid()
      ensures forall name :: name in oas <==> Exists(api.oneAgents, name)
      ensures forall name :: name in oas ==> oas[name] in api.oneAgents && oas[name].name == name
      ensures forall i :: 0 <= i < |api.oneAgents| ==>
        api.oneAgents[i].name in oas && oas[api.oneAgents[i].name] == api.oneAgents[i]
    {
      oas := map[];
      for i := 0 to |api.oneAgents|
        invariant forall name :: name in oas <==> exists j :: 0 <= j < i && api.oneAgents[j].name == name
        invariant forall name :: name in oas ==> oas[name] in api.oneAgents && oas[name].name == name
        invariant forall j ::
          0 <= j < i ==> api.oneAgents[j].name in oas && oas[api.oneAgents[j].name] == api.oneAgents[j]
      {
        oas := oas[api.oneAgents[i].name := api.oneAgents[i]];
      }
    }

    method MarkIfCordoned(c: Cache, node: Node, ghost start: Time, ghost from: nat, ghost done: set<string>,
                          ghost cordoned: set<string>, ghost before: Contents) returns (ok: bool)
      requires from <= |api.attempts| && start <= api.clock && node.name !in done && cordoned <= done
      requires AfterCordons(Info(start, from), done, before, c.Entries())
      requires CordonedAreMarked(Info(start, from), cordoned, c.Entries())
      modifies c, api`clock, api`attempts
      ensures old(api.clock) <= api.clock && old(api.attempts) <= api.attempts
      ensures AfterCordons(Info(start, from), done + {node.name}, before, c.Entries())
      ensures ok ==> CordonedAreMarked(Info(start, from), cordoned + CordonedNames([node]), c.Entries())
      ensures !api.mayFail && !ok ==> Blocked(api.oneAgents, CordonedNames([node]), before)
      ensures ForCordoned(api.attempts[|old(api.attempts)|..], api.oneAgents, CordonedNames([node]))
      ensures !c.Changed() ==> !old(c.Changed()) && c.Entries() == old(c.Entries())
    {
      if !IsUnschedulable(node) {
        assert CordonedNames([node]) == {};
        return true;
      }
      assert CordonedNames([node]) == {node.name};
      ghost var info, mid, cur, now := Info(start, from), |api.attempts|, c.Entries(), api.clock;
      ok := ReconcileUnschedulableNode(node, c);
      ghost var info', step := Info(start, from), Info(now, mid);
      assert info'.attempts == info.attempts + step.attempts;
      CordonStepMarked(info, step, info', done, cordoned, node.name, before, cur, c.Entries(), ok);
      assert At(cur, node.name) == At(before, node.name);
    }

    /** First loop: collect the cluster's node names and mark those that are cordoned. */
    method MarkCordonedNodes(c: Cache) returns (cluster: set<string>, ok: bool)
      requires api.Valid()
      modifies c, api`clock, api`attempts
      ensures old(api.clock) <= api.clock && old(api.attempts) <= api.attempts
      ensures OneAttemptPerNode(api.attempts[|old(api.attempts)|..])
      ensures AllFaithful(Info(old(api.clock), |old(api.attempts)|), old(c.Entries()))
      ensures ForCordoned(api.attempts[|old(api.attempts)|..], api.oneAgents, CordonedNames(api.nodes))
      ensures !api.mayFail && !ok ==> Blocked(api.oneAgents, CordonedNames(api.nodes), old(c.Entries()))
      ensures ok ==> cluster == NodeNames(api.nodes)
      ensures ok ==> AfterCordons(Info(old(api.clock), |old(api.attempts)|), cluster, old(c.Entries()), c.Entries())
      ensures ok ==> CordonedAreMarked(Info(old(api.clock), |old(api.attempts)|), CordonedNames(api.nodes), c.Entries())
      ensures !c.Changed() ==> !old(c.Changed()) && c.Entries() == old(c.Entries())
    {
      cluster := {};
      ghost var start, from, before := api.clock, |api.attempts|, c.Entries();
      ghost var cordoned: set<string> := {};
      for i := 0 to |api.nodes|
        invariant old(api.clock) <= api.clock && old(api.attempts) <= api.attempts
        invariant cluster == NodeNames(api.nodes[..i]) && cordoned == CordonedNames(api.nodes[..i])
        invariant AfterCordons(Info(start, from), cluster, before, c.Entries())
        invariant ForCordoned(api.attempts[from..], api.oneAgents, cordoned)
        invariant CordonedAreMarked(Info(start, from), cordoned, c.Entries())
        invariant !c.Changed() ==> !old(c.Changed()) && c.Entries() == before
      {
        var node := api.nodes[i];
        NamesNext(api.nodes, i);
        ghost var attempts := api.attempts;
        ok := MarkIfCordoned(c, node, start, from, cluster, cordoned, before);
        ForCordonedBoth(old(api.attempts), attempts, api.attempts, api.oneAgents, cordoned, CordonedNames([node]));
        if !ok {
          ForCordonedWithin(
            api.attempts[from..], api.oneAgents, cordoned + CordonedNames([node]), CordonedNames(api.nodes));
          return;
        }
        cluster := cluster + {node.name};
        cordoned := cordoned + CordonedNames([node]);
      }
      assert api.nodes[..|api.nodes|] == api.nodes;
      ok := true;
    }

    ghost function Since(start: Time): PassInfo
      reads api
    {
      PassInfo(start, api.clock, api.oneAgents, [])
    }

    /** The cluster nodes one OneAgent claims, in any order. */
    method RefreshInstances(
        c: Cache, oa: OneAgent, cluster: set<string>, ghost start: Time, ghost before: set<string>,
        ghost mid: Contents)
      requires oa in api.oneAgents && start <= api.clock
      requires AfterClaims(Since(start), before, mid, c.Entries())
      modifies c, api`clock
      ensures old(api.clock) <= api.clock
      ensures AfterClaims(Since(start), before + oa.instances.Keys * cluster, mid, c.Entries())
      ensures !c.Changed() ==> !old(c.Changed()) && c.Entries() == old(c.Entries())
    {
      var claimed := oa.instances.Keys;
      ghost var handled := before;
      while claimed != {}
        invariant claimed <= oa.instances.Keys && old(api.clock) <= api.clock
        invariant handled == before + (oa.instances.Keys - claimed) * cluster
        invariant AfterClaims(Since(start), handled, mid, c.Entries())
        invariant !c.Changed() ==> !old(c.Changed()) && c.Entries() == old(c.Entries())
        decreases claimed
      {
        var node :| node in claimed;
        claimed := claimed - {node};
        if node in cluster {
          RefreshNode(c, oa, node, start, handled, mid);
          handled := handled + {node};
        }
      }
    }

    method RefreshNode(
        c: Cache, oa: OneAgent, node: string, ghost start: Time, ghost handled: set<string>, ghost mid: Contents)
      requires oa in api.oneAgents && node in oa.instances && start <= api.clock
      requires AfterClaims(Since(start), handled, mid, c.Entries())
      modifies c, api`clock
      ensures old(api.clock) <= api.clock && c.Changed()
      ensures AfterClaims(Since(start), handled + {node}, mid, c.Entries())
    {
      ghost var cur := c.Entries();
      assert At(cur, node) == At(mid, node) || Refreshed(Since(start), mid, cur, node);
      assert MarkOrZero(cur, node) == MarkOrZero(mid, node);
      var now := api.Now();
      var info := CacheEntry(oa.name, oa.instances[node], now, ZERO_TIME);
      var cached := c.Get(node);
      if cached.Found? {
        info := info.(lastMarked := cached.entry.lastMarked);
      }
      c.Set(node, info);
      assert ClaimedEntry(api.oneAgents, node, info);
    }

    /** Second loop: refresh every cluster node that a OneAgent claims, in any order. */
    method RefreshClaimedNodes(
        c: Cache, oas: map<string, OneAgent>, cluster: set<string>) returns (ghost handled: set<string>)
      requires forall name :: name in oas ==> oas[name] in api.oneAgents && oas[name].name == name
      requires forall i ::
        0 <= i < |api.oneAgents| ==> api.oneAgents[i].name in oas && oas[api.oneAgents[i].name] == api.oneAgents[i]
      modifies c, api`clock
      ensures old(api.clock) <= api.clock
      ensures AfterClaims(Since(old(api.clock)), handled, old(c.Entries()), c.Entries())
      ensures forall n :: n in handled <==> n in cluster && Claims(api.oneAgents, n)
      ensures !c.Changed() ==> !old(c.Changed()) && c.Entries() == old(c.Entries())
    {
      handled := {};
      ghost var mid := c.Entries();
      var names := oas.Keys;
      while names != {}
        invariant names <= oas.Keys && old(api.clock) <= api.clock
        invariant AfterClaims(Since(old(api.clock)), handled, mid, c.Entries())
        invariant forall n :: n in handled ==> n in cluster && Claims(api.oneAgents, n)
        invariant forall name, n ::
          name in oas.Keys - names && n in oas[name].instances && n in cluster ==> n in handled
        invariant !c.Changed() ==> !old(c.Changed()) && c.Entries() == mid
        decreases names
      {
        var name :| name in names;
        names := names - {name};
        RefreshInstances(c, oas[name], cluster, old(api.clock), handled, mid);
        handled := handled + oas[name].instances.Keys * cluster;
      }
    }

    /** One round of the third loop. */
    method RemoveIfMissing(c: Cache, oas: map<string, OneAgent>, cluster: set<string>, node: string,
                           ghost start: Time, ghost from: nat, ghost gone: set<string>,
                           ghost before: Contents, ghost updated: Contents)
      requires forall name :: name in oas <==> Exists(api.oneAgents, name)
      requires from <= |api.attempts| && start <= api.clock && node !in gone && node in updated
      requires node !in cluster ==> At(updated, node) == At(before, node)
      requires AfterRemovals(Info(start, from), cluster, gone, before, updated, c.Entries())
      modifies c, api`clock, api`attempts
      ensures old(api.clock) <= api.clock && old(api.attempts) <= api.attempts
      ensures AfterRemovals(Info(start, from), cluster, gone + ({node} - cluster), before, updated, c.Entries())
      ensures DueOutside(api.attempts[|old(api.attempts)|..], start, api.oneAgents, cluster, before)
      ensures !c.Changed() ==> !old(c.Changed()) && c.Entries() == old(c.Entries())
    {
      if node in cluster {
        assert gone + ({node} - cluster) == gone;
        return;
      }
      assert {node} - cluster == {node};
      ghost var info, mid, cur, now := Info(start, from), |api.attempts|, c.Entries(), api.clock;
      assert At(cur, node) == At(updated, node);
      var ok := RemoveNode(c, node, Some(oas));
      ghost var info', step := Info(start, from), Info(now, mid);
      assert info'.attempts == info.attempts + step.attempts;
      RemovalStep(info, step, info', cluster, gone, node, before, updated, cur, c.Entries(), ok);
    }

    /** Third loop: notify about and remove every cached node that is not in the cluster, in any order. */
    method RemoveMissingNodes(
        c: Cache, oas: map<string, OneAgent>, cluster: set<string>, ghost start: Time, ghost from: nat,
                              ghost before: Contents)
      requires forall name :: name in oas <==> Exists(api.oneAgents, name)
      requires from <= |api.attempts| && start <= api.clock
      requires AfterRemovals(Info(start, from), cluster, {}, before, c.Entries(), c.Entries())
      requires forall n :: n !in cluster ==> At(c.Entries(), n) == At(before, n)
      modifies c, api`clock, api`attempts
      ensures old(api.clock) <= api.clock && old(api.attempts) <= api.attempts
      ensures AfterRemovals(Info(start, from), cluster, old(c.Entries()).Keys - cluster, before, old(c.Entries()),
        c.Entries())
      ensures DueOutside(api.attempts[|old(api.attempts)|..], start, api.oneAgents, cluster, before)
      ensures !c.Changed() ==> !old(c.Changed()) && c.Entries() == old(c.Entries())
    {
      var keys := c.Keys();
      ghost var updated := c.Entries();
      ghost var gone: set<string> := {};
      while keys != {}
        invariant Visited(updated.Keys, cluster, keys, gone)
        invariant old(api.clock) <= api.clock && old(api.attempts) <= api.attempts
        invariant AfterRemovals(Info(start, from), cluster, gone, before, updated, c.Entries())
        invariant DueOutside(api.attempts[|old(api.attempts)|..], start, api.oneAgents, cluster, before)
        invariant !c.Changed() ==> !old(c.Changed()) && c.Entries() == updated
        decreases keys
      {
        var node :| node in keys;
        VisitedNext(updated.Keys, cluster, keys, gone, node);
        keys := keys - {node};
        ghost var attempts := api.attempts;
        RemoveIfMissing(c, oas, cluster, node, start, from, gone, before, updated);
        DueBoth(old(api.attempts), attempts, api.attempts, start, api.oneAgents, cluster, before);
        gone := gone + ({node} - cluster);
      }
      assert gone == updated.Keys - cluster;
    }

    /** The second loop, after the first has left a recent mark on every cordoned node. */
    method RefreshAll(
        c: Cache, oas: map<string, OneAgent>, cluster: set<string>, ghost start: Time, ghost from: nat,
        ghost before: Contents)
      requires from <= |api.attempts| && start <= api.clock
      requires forall name :: name in oas ==> oas[name] in api.oneAgents && oas[name].name == name
      requires forall i :: 0 <= i < |api.oneAgents| ==>
                 api.oneAgents[i].name in oas && oas[api.oneAgents[i].name] == api.oneAgents[i]
      requires AfterCordons(Info(start, from), cluster, before, c.Entries())
      requires CordonedAreMarked(Info(start, from), CordonedNames(api.nodes), c.Entries())
      modifies c, api`clock
      ensures old(api.clock) <= api.clock
      ensures BeforeRemovals(Info(start, from), cluster, before, c.Entries(), CordonedNames(api.nodes))
      ensures !c.Changed() ==> !old(c.Changed()) && c.Entries() == old(c.Entries())
    {
      ghost var info, mid := Info(start, from), c.Entries();
      ghost var handled := RefreshClaimedNodes(c, oas, cluster);
      AfterSecondLoop(info, PassInfo(info.end, api.clock, api.oneAgents, []), Info(start, from), cluster, handled,
        before, mid, c.Entries(), CordonedNames(api.nodes));
    }

    /** The second and the third loop. */
    method RefreshAndRemove(
        c: Cache, oas: map<string, OneAgent>, cluster: set<string>, ghost start: Time, ghost from: nat,
        ghost before: Contents)
      requires from <= |api.attempts| && start <= api.clock && CordonedNames(api.nodes) <= cluster
      requires forall name :: name in oas <==> Exists(api.oneAgents, name)
      requires forall name :: name in oas ==> oas[name] in api.oneAgents && oas[name].name == name
      requires forall i :: 0 <= i < |api.oneAgents| ==>
                 api.oneAgents[i].name in oas && oas[api.oneAgents[i].name] == api.oneAgents[i]
      requires AfterCordons(Info(start, from), cluster, before, c.Entries())
      requires CordonedAreMarked(Info(start, from), CordonedNames(api.nodes), c.Entries())
      modifies c, api`clock, api`attempts
      ensures old(api.clock) <= api.clock && old(api.attempts) <= api.attempts
      ensures DueOutside(api.attempts[|old(api.attempts)|..], start, api.oneAgents, cluster, before)
      ensures LegalPass(Info(start, from), before, c.Entries())
      ensures Resynced(Info(start, from), cluster, before, c.Entries())
      ensures CordonedAreMarked(Info(start, from), CordonedNames(api.nodes), c.Entries())
      ensures !c.Changed() ==> !old(c.Changed()) && c.Entries() == old(c.Entries())
    {
      RefreshAll(c, oas, cluster, start, from, before);
      RemoveAll(c, oas, cluster, start, from, before);
    }

    /** The third loop, and what all three amount to. */
    method RemoveAll(
        c: Cache, oas: map<string, OneAgent>, cluster: set<string>, ghost start: Time, ghost from: nat,
        ghost before: Contents)
      requires from <= |api.attempts| && start <= api.clock && CordonedNames(api.nodes) <= cluster
      requires forall name :: name in oas <==> Exists(api.oneAgents, name)
      requires BeforeRemovals(Info(start, from), cluster, before, c.Entries(), CordonedNames(api.nodes))
      modifies c, api`clock, api`attempts
      ensures old(api.clock) <= api.clock && old(api.attempts) <= api.attempts
      ensures DueOutside(api.attempts[|old(api.attempts)|..], start, api.oneAgents, cluster, before)
      ensures LegalPass(Info(start, from), before, c.Entries())
      ensures Resynced(Info(start, from), cluster, before, c.Entries())
      ensures CordonedAreMarked(Info(start, from), CordonedNames(api.nodes), c.Entries())
      ensures !c.Changed() ==> !old(c.Changed()) && c.Entries() == old(c.Entries())
    {
      ghost var info, updated := Info(start, from), c.Entries();
      RemoveMissingNodes(c, oas, cluster, start, from, before);
      AfterThirdLoop(info, Info(start, from), cluster, before, updated, c.Entries(), CordonedNames(api.nodes));
    }

    method ReconcileAll() returns (ok: bool)
      requires api.Valid()
      modifies api
      ensures api.oneAgents == old(api.oneAgents) && api.nodes == old(api.nodes) && old(api.attempts) <= api.attempts
      ensures LegalPass(Info(old(api.clock), |old(api.attempts)|), old(api.Stored()), api.Stored())
      ensures if ok then Resynced(Info(old(api.clock), |old(api.attempts)|), NodeNames(api.nodes), old(api.Stored()),
        api.Stored())
              else api.persisted == old(api.persisted)
      ensures ok ==> CordonedAreMarked(Info(old(api.clock), |old(api.attempts)|), CordonedNames(api.nodes),
        api.Stored())
      ensures ResyncAttempts(api.attempts[|old(api.attempts)|..], old(api.clock), api.oneAgents, api.nodes,
        old(api.Stored()))
      ensures ok ==> !Blocked(api.oneAgents, CordonedNames(api.nodes), old(api.Stored()))
      ensures !api.mayFail ==> (ok <==> Succeeds(Tick, api.oneAgents, api.nodes, old(api.Stored())))
    {
      NoneAfter([], api.clock, api.oneAgents, api.nodes, api.Stored());
      ok := api.Try();
      if !ok {
        return;
      }
      var oas := OneAgentTable();
      var cache := GetCache();
      if cache.None? {
        return false;
      }
      ok := api.Try();
      if !ok {
        return;
      }
      ok := ResyncCache(cache.value, oas);
    }

    /** The three loops over a cache just loaded. */
    method ResyncCache(c: Cache, oas: map<string, OneAgent>) returns (ok: bool)
      requires api.Valid() && c.Entries() == api.Stored() && c.FlagsChanges(api.Stored())
      requires forall name :: name in oas <==> Exists(api.oneAgents, name)
      requires forall name :: name in oas ==> oas[name] in api.oneAgents && oas[name].name == name
      requires forall i :: 0 <= i < |api.oneAgents| ==>
                 api.oneAgents[i].name in oas && oas[api.oneAgents[i].name] == api.oneAgents[i]
      modifies c, api`clock, api`attempts, api`persisted
      ensures old(api.attempts) <= api.attempts
      ensures LegalPass(Info(old(api.clock), |old(api.attempts)|), old(api.Stored()), api.Stored())
      ensures if ok then Resynced(Info(old(api.clock), |old(api.attempts)|), NodeNames(api.nodes), old(api.Stored()),
        api.Stored())
              else api.persisted == old(api.persisted)
      ensures ok ==> CordonedAreMarked(Info(old(api.clock), |old(api.attempts)|), CordonedNames(api.nodes),
        api.Stored())
      ensures ResyncAttempts(api.attempts[|old(api.attempts)|..], old(api.clock), api.oneAgents, api.nodes,
        old(api.Stored()))
      ensures ok ==> !Blocked(api.oneAgents, CordonedNames(api.nodes), old(api.Stored()))
      ensures !api.mayFail && !ok ==> Blocked(api.oneAgents, CordonedNames(api.nodes), old(api.Stored()))
    {
      ghost var start, from, before := api.clock, |api.attempts|, api.Stored();
      var cluster;
      cluster, ok := MarkCordonedNodes(c);
      ghost var marked := api.attempts;
      NoneAfter(marked[from..], start, api.oneAgents, api.nodes, before);
      if !ok {
        return;
      }
      NotBlocked(Info(start, from), cluster, CordonedNames(api.nodes), before, c.Entries());
      RefreshAndRemove(c, oas, cluster, start, from, before);
      ResyncSplit(old(api.attempts), marked, api.attempts, start, api.oneAgents, api.nodes, before);
      ok := UpdateCache(c);
    }

    /**
     * The event loop: between two events the cluster changes at will. Whatever comes, and whatever fails, the passes
     * made are a run to which everything in NodeTermination applies, and every tick without an error is a full resync.
     */
    method HandleEvents(steps: seq<Step>) returns (ghost run: seq<Pass>, oks: seq<bool>)
      requires forall i :: 0 <= i < |steps| ==> steps[i].Valid()
      modifies api
      ensures LegalRun(run) && |run| == |steps|
      ensures Joined(old(api.Stored()), run, api.Stored())
      ensures AllHandled(steps, run, oks, api.mayFail)
    {
      run, oks := [], [];
      for i := 0 to |steps|
        invariant LegalRun(run) && |run| == i
        invariant Joined(old(api.Stored()), run, api.Stored())
        invariant run != [] ==> run[i - 1].info.end == api.clock
        invariant AllHandled(steps, run, oks, api.mayFail)
      {
        var pass, ok := HandleEvent(steps[i]);
        RunNext(old(api.Stored()), run, pass);
        AllHandledNext(steps, run, oks, api.mayFail, pass, ok);
        run := run + [pass];
        oks := oks + [ok];
      }
    }

    method HandleEvent(step: Step) returns (ghost pass: Pass, ok: bool)
      requires step.Valid()
      modifies api
      ensures LegalPass(pass.info, pass.before, pass.after) && Handled(step, pass, ok)
      ensures pass.before == old(api.Stored()) && pass.after == api.Stored()
      ensures !api.mayFail ==> (ok <==> Succeeds(step.event, step.oneAgents, step.nodes, pass.before))
      ensures old(api.clock) <= pass.info.start && pass.info.end == api.clock
    {
      api.nodes, api.oneAgents := step.nodes, step.oneAgents;
      var _ := api.Now();
      ghost var start, from, before := api.clock, |api.attempts|, api.Stored();
      match step.event {
        case NodeUpdated(name) => ok := OnUpdate(name);
        case NodeDeleted(name) => ok := OnDeletion(name);
        case Tick => ok := ReconcileAll();
      }
      pass := Pass(Info(start, from), before, api.Stored());
    }
  }

  /** The entry of the node does not decode. */
  predicate Garbled(entries: Contents, node: string) {
    node in entries && entries[node].Malformed?
  }

  /** What an event needs to be handled without an error when no call fails. */
  ghost predicate Succeeds(event: Event, oneAgents: seq<OneAgent>, nodes: seq<Node>, before: Contents) {
    match event
    case NodeUpdated(n) => n in NodeNames(nodes) && !Blocked(oneAgents, CordonedNames(nodes) * {n}, before)
    case NodeDeleted(n) => !Garbled(before, n)
    case Tick => !Blocked(oneAgents, CordonedNames(nodes), before)
  }

  /** The events a pass may attempt: an update and a deletion only for their own node, the former if it is cordoned. */
  ghost predicate MayAttempt(step: Step, pass: Pass) {
    match step.event
    case NodeUpdated(n) => ForCordoned(pass.info.attempts, step.oneAgents, CordonedNames(step.nodes) * {n})
    case NodeDeleted(n) =>
      forall i :: 0 <= i < |pass.info.attempts| ==>
        pass.info.attempts[i].node == n
        && EntryDue(pass.info.start, step.oneAgents, pass.before, pass.info.attempts[i])
    case Tick => ResyncAttempts(pass.info.attempts, pass.info.start, step.oneAgents, step.nodes, pass.before)
  }

  /** An update of a node changes at most its own entry, and that only if it is cordoned and a OneAgent claims it. */
  ghost predicate UpdatesOnly(info: PassInfo, node: string, cordoned: set<string>, before: Contents, after: Contents) {
    && (forall n :: n != node ==> At(after, n) == At(before, n))
    && EntryStep(info, At(before, node), At(after, node))
    && (node !in cordoned || !Claims(info.oneAgents, node) ==> after == before && info.attempts == [])
  }

  /** What handling an event makes of its pass: an error persists nothing, and a tick without one is a full resync. */
  ghost predicate Handled(step: Step, pass: Pass, ok: bool) {
    && pass.info.oneAgents == step.oneAgents
    && (!ok ==> pass.after == pass.before)
    && (ok && step.event.Tick? ==>
          && Resynced(pass.info, NodeNames(step.nodes), pass.before, pass.after)
          && CordonedAreMarked(pass.info, CordonedNames(step.nodes), pass.after))
    && (ok && step.event.NodeDeleted? ==> step.event.node !in pass.after)
    && (step.event.NodeUpdated? ==>
          UpdatesOnly(pass.info, step.event.node, CordonedNames(step.nodes), pass.before, pass.after))
    && (step.event.NodeDeleted? ==> forall n :: n != step.event.node ==> At(pass.after, n) == At(pass.before, n))
    && MayAttempt(step, pass)
  }

  /** Every event is handled, and without failing calls those that cannot succeed are the only ones to fail. */
  ghost predicate AllHandled(steps: seq<Step>, run: seq<Pass>, oks: seq<bool>, mayFail: bool) {
    && |run| == |oks| <= |steps|
    && (forall i :: 0 <= i < |run| ==> Handled(steps[i], run[i], oks[i]))
    && (!mayFail ==> forall i :: 0 <= i < |run| ==>
          (oks[i] <==> Succeeds(steps[i].event, steps[i].oneAgents, steps[i].nodes, run[i].before)))
  }

  lemma AllHandledNext(steps: seq<Step>, run: seq<Pass>, oks: seq<bool>, mayFail: bool, pass: Pass, ok: bool)
    requires AllHandled(steps, run, oks, mayFail) && |run| < |steps| && Handled(steps[|run|], pass, ok)
    requires !mayFail ==>
               (ok <==> Succeeds(steps[|run|].event, steps[|run|].oneAgents, steps[|run|].nodes, pass.before))
    ensures AllHandled(steps, run + [pass], oks + [ok], mayFail)
  {
  }

  /** The run leads from the one contents to the other. */
  predicate Joined(before: Contents, run: seq<Pass>, after: Contents) {
    if run == [] then after == before else run[0].before == before && run[|run| - 1].after == after
  }

  lemma RunNext(before: Contents, run: seq<Pass>, pass: Pass)
    requires LegalRun(run) && Joined(before, run, pass.before) && LegalPass(pass.info, pass.before, pass.after)
    requires run != [] ==> run[|run| - 1].info.end <= pass.info.start
    ensures LegalRun(run + [pass]) && Joined(before, run + [pass], pass.after)
  {
    var more := run + [pass];
    forall i | 0 <= i < |more| ensures LegalPass(more[i].info, more[i].before, more[i].after) {
      assert i < |run| ==> more[i] == run[i];
    }
  }

  /** Cordoned claimed nodes that all carry a mark in the end had entries that decode, if any. */
  lemma NotBlocked(info: PassInfo, cluster: set<string>, cordoned: set<string>, before: Contents, cur: Contents)
    requires AfterCordons(info, cluster, before, cur) && CordonedAreMarked(info, cordoned, cur)
    ensures !Blocked(info.oneAgents, cordoned, before)
  {
  }

  /** What the third loop starts from. */
  ghost predicate BeforeRemovals(info: PassInfo, cluster: set<string>, before: Contents, updated: Contents,
                                 cordoned: set<string>) {
    && Updated(info, cluster, before, updated)
    && CordonedAreMarked(info, cordoned, updated)
    && AfterRemovals(info, cluster, {}, before, updated, updated)
    && (forall n :: n !in cluster ==> At(updated, n) == At(before, n))
  }

  /** What holds when the first two loops are done, and what the third one starts from. */
  lemma AfterSecondLoop(info: PassInfo, since: PassInfo, info': PassInfo, cluster: set<string>, handled: set<string>,
                        before: Contents, mid: Contents, updated: Contents, cordoned: set<string>)
    requires Grows(info, info') && Grows(since, info') && info'.attempts == info.attempts
    requires AfterCordons(info, cluster, before, mid) && AfterClaims(since, handled, mid, updated)
    requires forall n :: n in handled <==> n in cluster && Claims(info.oneAgents, n)
    requires CordonedAreMarked(info, cordoned, mid)
    ensures BeforeRemovals(info', cluster, before, updated, cordoned)
  {
    AfterClaimsLater(since, info', handled, mid, updated);
    ClaimsAfterCordons(info, info', cluster, handled, before, mid, updated);
    MarksRefreshed(info, info', cluster, handled, mid, updated, cordoned);
    NothingRemovedYet(info', cluster, before, updated);
  }

  lemma AfterThirdLoop(
      info: PassInfo, info': PassInfo, cluster: set<string>, before: Contents, updated: Contents,
      cur: Contents,
                       cordoned: set<string>)
    requires Grows(info, info') && cordoned <= cluster && info'.start <= info'.end
    requires Updated(info, cluster, before, updated) && CordonedAreMarked(info, cordoned, updated)
    requires AfterRemovals(info', cluster, updated.Keys - cluster, before, updated, cur)
    ensures Resynced(info', cluster, before, cur) && LegalPass(info', before, cur)
    ensures CordonedAreMarked(info', cordoned, cur)
  {
    ResyncedAtEnd(info, info', cluster, before, updated, cur);
    assert forall n :: n in cordoned ==> n in cluster && At(cur, n) == At(updated, n);
    MarkedLater(info, info', cordoned, updated, cur);
  }

  lemma AfterClaimsLater(info: PassInfo, info': PassInfo, handled: set<string>, mid: Contents, cur: Contents)
    requires Grows(info, info') && AfterClaims(info, handled, mid, cur)
    ensures AfterClaims(info', handled, mid, cur)
  {
  }

  lemma MarksRefreshed(info: PassInfo, info': PassInfo, cluster: set<string>, handled: set<string>,
                       mid: Contents, cur: Contents, cordoned: set<string>)
    requires Grows(info, info') && AfterClaims(info', handled, mid, cur)
    requires CordonedAreMarked(info, cordoned, mid)
    ensures CordonedAreMarked(info', cordoned, cur)
  {
    forall n | n in cordoned && Decodes(mid, n) ensures Decodes(cur, n) && MarkOrZero(cur, n) == MarkOrZero(mid, n) {
      assert n in handled ==> Refreshed(info', mid, cur, n);
      assert n !in handled ==> At(cur, n) == At(mid, n);
    }
    MarkedLater(info, info', cordoned, mid, cur);
  }

  lemma NothingRemovedYet(info: PassInfo, cluster: set<string>, before: Contents, updated: Contents)
    requires Updated(info, cluster, before, updated)
    ensures AfterRemovals(info, cluster, {}, before, updated, updated)
    ensures forall n :: n !in cluster ==> At(updated, n) == At(before, n)
  {
  }

  lemma NodeAtEnd(
      info: PassInfo, info': PassInfo, cluster: set<string>, before: Contents, updated: Contents,
      cur: Contents, n: string)
    requires Grows(info, info')
    requires Updated(info, cluster, before, updated)
    requires AfterRemovals(info', cluster, updated.Keys - cluster, before, updated, cur)
    ensures NodeResynced(info', cluster, before, cur, n)
  {
    if n in cluster {
      assert At(cur, n) == At(updated, n);
      assert LegalNode(info, n, At(before, n), At(updated, n));
    } else {
      assert At(updated, n) == At(before, n);
      assert n !in before ==> At(cur, n) == At(updated, n);
    }
  }

  lemma ResyncedAtEnd(
      info: PassInfo, info': PassInfo, cluster: set<string>, before: Contents, updated: Contents, cur: Contents)
    requires Grows(info, info')
    requires Updated(info, cluster, before, updated)
    requires AfterRemovals(info', cluster, updated.Keys - cluster, before, updated, cur)
    ensures Resynced(info', cluster, before, cur)
  {
    forall n ensures NodeResynced(info', cluster, before, cur, n) {
      NodeAtEnd(info, info', cluster, before, updated, cur, n);
    }
  }
}
