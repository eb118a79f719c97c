/**
 * What one pass of the nodes controller may do to the persisted cache, and what follows for whole runs.
 * The handlers of NodesController are proved to make only such passes.
 */
module NodeTermination {
  import opened Common
  import opened NodeCache

  datatype OneAgent = OneAgent(name: string, instances: map<string, string>)

  /** An attempt to send the termination event of a node, made when the cache held the given earlier mark. */
  datatype Attempt = Attempt(node: string, ipAddress: string, previousMark: Time, at: Time, sent: bool)

  /** A pass: clock readings around it, the OneAgents it could see, and the attempts it made. */
  datatype PassInfo = PassInfo(start: Time, end: Time, oneAgents: seq<OneAgent>, attempts: seq<Attempt>)

  function At(c: Contents, node: string): Option<Raw> {
    if node in c then Some(c[node]) else None
  }

  predicate Decodes(c: Contents, node: string) {
    node in c && c[node].Encoded?
  }

  function MarkOrZero(c: Contents, node: string): Time {
    if Decodes(c, node) then c[node].entry.lastMarked else ZERO_TIME
  }

  predicate Exists(oneAgents: seq<OneAgent>, name: string) {
    exists i :: 0 <= i < |oneAgents| && oneAgents[i].name == name
  }

  predicate Claims(oneAgents: seq<OneAgent>, node: string) {
    exists i :: 0 <= i < |oneAgents| && node in oneAgents[i].instances
  }

  /** The entry names a OneAgent that claims the node, with the address that OneAgent reports for it. */
  predicate ClaimedEntry(oneAgents: seq<OneAgent>, node: string, e: CacheEntry) {
    exists i :: 0 <= i < |oneAgents| && oneAgents[i].name == e.instance
                && node in oneAgents[i].instances && oneAgents[i].instances[node] == e.ipAddress
  }

  predicate Within(t: Time, info: PassInfo) {
    info.start <= t <= info.end
  }

  predicate AttemptedAt(info: PassInfo, node: string, at: Time) {
    exists i :: 0 <= i < |info.attempts| && info.attempts[i].node == node && info.attempts[i].at == at
  }

  /** A mark is kept, or replaced by one more than an hour later that this pass made with an attempt. */
  predicate MarkStep(info: PassInfo, node: string, before: Time, after: Time) {
    after == before || (before + HOUR < after && Within(after, info) && AttemptedAt(info, node, after))
  }

  predicate AttemptFor(info: PassInfo, node: string, sent: bool) {
    exists i :: 0 <= i < |info.attempts| && info.attempts[i].node == node && info.attempts[i].sent == sent
  }

  /** Some clock reading of the pass is the given distance or more after an instant. */
  ghost predicate UnseenForAnHour(lastSeen: Time, info: PassInfo) {
    exists t :: Within(t, info) && t - lastSeen > HOUR
  }

  ghost predicate MarkedWithinAnHour(lastMarked: Time, info: PassInfo) {
    exists t :: Within(t, info) && t <= lastMarked + HOUR
  }

  /** The five reasons for which an entry may leave the cache. */
  ghost predicate RemovalJustified(info: PassInfo, node: string, raw: Raw) {
    raw.Encoded? &&
    (|| UnseenForAnHour(raw.entry.lastSeen, info)
     || raw.entry.ipAddress == ""
     || !Exists(info.oneAgents, raw.entry.instance)
     || AttemptFor(info, node, true)
     || MarkedWithinAnHour(raw.entry.lastMarked, info))
  }

  /** What a pass may do to the entry of one node. */
  ghost predicate LegalNode(info: PassInfo, node: string, before: Option<Raw>, after: Option<Raw>) {
    match (before, after)
    case (None, None) => true
    case (None, Some(a)) =>
      a.Encoded? && ClaimedEntry(info.oneAgents, node, a.entry) && MarkStep(info, node, ZERO_TIME, a.entry.lastMarked)
    case (Some(b), None) => RemovalJustified(info, node, b)
    case (Some(b), Some(a)) =>
      a == b || (a.Encoded?
          && MarkStep(info, node, if b.Encoded? then b.entry.lastMarked else ZERO_TIME, a.entry.lastMarked))
  }

  predicate OneAttemptPerNode(attempts: seq<Attempt>) {
    && (forall i, j :: 0 <= i < j < |attempts| ==> attempts[i].node != attempts[j].node)
    && (forall i :: 0 <= i < |attempts| ==> attempts[i].previousMark + HOUR < attempts[i].at)
  }

  /** Some OneAgent reports the address for the node. */
  predicate ClaimedAddress(oneAgents: seq<OneAgent>, node: string, ipAddress: string) {
    exists i :: 0 <= i < |oneAgents| && node in oneAgents[i].instances && oneAgents[i].instances[node] == ipAddress
  }

  /** The entry gives a reason to announce its removal: it has the address, its OneAgent exists, and it is not stale. */
  predicate EntryDue(start: Time, oneAgents: seq<OneAgent>, before: Contents, a: Attempt) {
    && Decodes(before, a.node)
    && var e := before[a.node].entry;
    && a.ipAddress == e.ipAddress && e.ipAddress != "" && Exists(oneAgents, e.instance) && start - e.lastSeen <= HOUR
  }

  /** What marking an unschedulable node may make of its entry: a new mark, or a new entry seen just now. */
  predicate EntryStep(info: PassInfo, before: Option<Raw>, after: Option<Raw>) {
    || after == before
    || (&& after.Some? && after.value.Encoded?
        && match before
           case None => Within(after.value.entry.lastSeen, info)
           case Some(b) => b.Encoded? && after.value.entry == b.entry.(lastMarked := after.value.entry.lastMarked))
  }

  /** An attempt is made in its pass, and tells the mark that was persisted before it. */
  predicate Faithful(a: Attempt, info: PassInfo, before: Contents) {
    a.previousMark == MarkOrZero(before, a.node) && Within(a.at, info)
  }

  predicate AllFaithful(info: PassInfo, before: Contents) {
    forall i :: 0 <= i < |info.attempts| ==> Faithful(info.attempts[i], info, before)
  }

  /** The entry, if it is still there, carries the mark of the attempt. */
  predicate RecordedIn(a: Attempt, after: Contents) {
    a.node in after ==> Decodes(after, a.node) && after[a.node].entry.lastMarked == a.at
  }

  predicate AllRecorded(info: PassInfo, after: Contents) {
    forall i :: 0 <= i < |info.attempts| ==> RecordedIn(info.attempts[i], after)
  }

  /** A pass over persisted contents; a pass that does not persist leaves them alone, whatever it attempted. */
  ghost predicate LegalPass(info: PassInfo, before: Contents, after: Contents) {
    && info.start <= info.end
    && OneAttemptPerNode(info.attempts)
    && AllFaithful(info, before)
    && (after == before || AllRecorded(info, after))
    && (forall n :: LegalNode(info, n, At(before, n), At(after, n)))
  }

  // ---------- the result of a full resync ----------

  /** Names of the nodes outside the cluster whose removal failed: undecodable entries and unsent events. */
  predicate RemovalFailed(info: PassInfo, before: Contents, node: string) {
    node in before && (before[node].Malformed? || AttemptFor(info, node, false))
  }

  /** An unsent event leaves the entry as it was, except for the mark of the attempt. */
  predicate KeptWithMark(info: PassInfo, node: string, before: Raw, after: Raw) {
    && before.Encoded?
    && exists i :: 0 <= i < |info.attempts| && info.attempts[i].node == node && !info.attempts[i].sent
                   && after == Encoded(before.entry.(lastMarked := info.attempts[i].at))
  }

  /** An entry that is kept although its node is not in the cluster. */
  predicate KeptAfterFailure(info: PassInfo, node: string, before: Raw, after: Raw) {
    if before.Malformed? then after == before else KeptWithMark(info, node, before, after)
  }

  /** Some cordoned node that a OneAgent claims has an entry that does not decode. */
  predicate Blocked(oneAgents: seq<OneAgent>, cordoned: set<string>, before: Contents) {
    exists n :: n in cordoned && Claims(oneAgents, n) && n in before && before[n].Malformed?
  }

  ghost predicate Resynced(info: PassInfo, cluster: set<string>, before: Contents, after: Contents) {
    forall n :: NodeResynced(info, cluster, before, after, n)
  }

  /** Whether the node has an entry in the end, and what the entry of a cluster node says. */
  ghost predicate NodeResynced(info: PassInfo, cluster: set<string>, before: Contents, after: Contents, n: string) {
    && (n in after <==> if n in cluster then n in before || Claims(info.oneAgents, n)
        else RemovalFailed(info, before, n))
    && (n in cluster && Claims(info.oneAgents, n) ==>
          && Decodes(after, n)
          && ClaimedEntry(info.oneAgents, n, after[n].entry)
          && Within(after[n].entry.lastSeen, info)
          && MarkStep(info, n, MarkOrZero(before, n), after[n].entry.lastMarked))
    && (n in cluster && !Claims(info.oneAgents, n) ==> At(after, n) == At(before, n))
    && (n !in cluster && n in after ==> n in before && KeptAfterFailure(info, n, before[n], after[n]))
  }

  /** Every cordoned node that a OneAgent claims carries a mark that is at most an hour old. */
  ghost predicate CordonedAreMarked(info: PassInfo, cordoned: set<string>, after: Contents) {
    forall n :: n in cordoned && Claims(info.oneAgents, n) ==>
      Decodes(after, n) && MarkedWithinAnHour(after[n].entry.lastMarked, info)
  }

  // ---------- whole runs ----------

  datatype Pass = Pass(info: PassInfo, before: Contents, after: Contents)

  /** Passes one after the other on a clock that does not run backwards. */
  ghost predicate LegalRun(run: seq<Pass>) {
    && (forall i :: 0 <= i < |run| ==> LegalPass(run[i].info, run[i].before, run[i].after))
    && (forall i :: 0 < i < |run| ==> run[i].before == run[i - 1].after && run[i - 1].info.end <= run[i].info.start)
  }

  function Mark(c: Contents, node: string): Time
    requires Decodes(c, node)
  {
    c[node].entry.lastMarked
  }

  lemma PassKeepsMark(p: Pass, node: string)
    requires LegalPass(p.info, p.before, p.after) && Decodes(p.before, node) && Decodes(p.after, node)
    ensures MarkStep(p.info, node, Mark(p.before, node), Mark(p.after, node))
  {
    assert LegalNode(p.info, node, At(p.before, node), At(p.after, node));
  }

  /**
   * As long as the entry of a node stays, its persisted mark never decreases, and any two different marks are more
   * than an hour apart.
   */
  lemma {:induction false} MarksOverRun(run: seq<Pass>, node: string, i: nat, j: nat)
    requires LegalRun(run) && i <= j < |run|
    requires forall k :: i <= k <= j ==> Decodes(run[k].before, node) && Decodes(run[k].after, node)
    ensures var m, m' := Mark(run[i].before, node), Mark(run[j].after, node);
            m' == m || m + 60 * 60 * 1_000_000_000 < m'
    decreases j - i
  {
    PassKeepsMark(run[j], node);
    if i < j {
      MarksOverRun(run, node, i, j - 1);
    }
  }

  /** Everything that leaves the persisted cache during a run leaves it in some pass for one of the five reasons. */
  lemma {:induction false} RemovalsOverRun(run: seq<Pass>, node: string) returns (k: nat)
    requires LegalRun(run) && run != []
    requires node in run[0].before && node !in run[|run| - 1].after
    ensures k < |run| && node in run[k].before && node !in run[k].after
    ensures RemovalJustified(run[k].info, node, run[k].before[node])
    decreases |run|
  {
    if node in run[|run| - 1].before {
      k := |run| - 1;
      assert LegalNode(run[k].info, node, At(run[k].before, node), At(run[k].after, node));
    } else {
      assert |run| > 1;
      k := RemovalsOverRun(run[..|run| - 1], node);
    }
  }

  /** Marks written by a run lie in the passes that wrote them, so they are ordered like the passes. */
  lemma {:induction false} MarksNeverAheadOfClock(run: seq<Pass>, node: string, j: nat)
    requires LegalRun(run) && j < |run| && Decodes(run[j].after, node)
    requires forall n :: Decodes(run[0].before, n) ==> Mark(run[0].before, n) <= run[0].info.start
    requires ZERO_TIME <= run[0].info.start
    ensures Mark(run[j].after, node) <= run[j].info.end
    decreases j
  {
    var p := run[j];
    assert LegalNode(p.info, node, At(p.before, node), At(p.after, node));
    ClockNeverBack(run, j);
    if Decodes(p.before, node) {
      if j > 0 {
        MarksNeverAheadOfClock(run, node, j - 1);
      } else {
        assert Mark(run[0].before, node) <= run[0].info.start;
      }
    }
  }

  lemma {:induction false} ClockNeverBack(run: seq<Pass>, j: nat)
    requires LegalRun(run) && j < |run|
    ensures run[0].info.start <= run[j].info.start <= run[j].info.end
    decreases j
  {
    if j > 0 {
      ClockNeverBack(run, j - 1);
    }
  }

  // ---------- events over whole runs ----------

  /**
   * Once a mark is persisted, every later attempt for the node is more than an hour after the one that set it, as long
   * as the entry stays.
   */
  lemma NextAttemptSpaced(run: seq<Pass>, i: nat, j: nat, a: Attempt, b: Attempt)
    requires LegalRun(run) && i < j < |run|
    requires a in run[i].info.attempts && b in run[j].info.attempts && a.node == b.node
    requires a.node in run[i].after && RecordedIn(a, run[i].after)
    requires forall k :: i < k < j ==> Decodes(run[k].after, a.node)
    ensures b.at > a.at + HOUR
  {
    var node := a.node;
    assert Faithful(b, run[j].info, run[j].before);
    forall k | i < k <= j ensures Decodes(run[k].before, node) {
      assert run[k].before == run[k - 1].after;
    }
    if i + 1 < j {
      MarksOverRun(run, node, i + 1, j - 1);
    }
    assert run[i + 1].before == run[i].after && run[j].before == run[j - 1].after;
  }

  /** A pass that may follow and attempts the event of the same node, however soon. */
  ghost predicate NextAttempt(p: Pass, q: Pass, b: Attempt) {
    && LegalPass(q.info, q.before, q.after) && q.before == p.after && p.info.end <= q.info.start
    && b in q.info.attempts
  }

  /** Attempts of the node in a pass right after p come more than an hour after a. */
  ghost predicate NextSpaced(p: Pass, a: Attempt) {
    forall q: Pass, b: Attempt :: NextAttempt(p, q, b) && b.node == a.node ==> b.at > a.at + HOUR
  }

  /** A pass that sends the node's event at once and persists nothing. */
  function Repeat(p: Pass, a: Attempt): Pass {
    var b := Attempt(a.node, a.ipAddress, MarkOrZero(p.after, a.node), p.info.end, true);
    var claimant := OneAgent("oneagent", map[a.node := a.ipAddress]);
    Pass(PassInfo(p.info.end, p.info.end, [claimant], [b]), p.after, p.after)
  }

  /**
   * The event of a node can be sent again within the hour exactly when the pass that attempted it did not leave the
   * entry with its mark: because it persisted nothing, or because it removed the entry.
   */
  lemma NextEventSpacedIff(p: Pass, a: Attempt)
    requires LegalPass(p.info, p.before, p.after) && a in p.info.attempts
    requires ZERO_TIME <= a.previousMark && p.info.end <= a.at + HOUR
    ensures NextSpaced(p, a) <==> a.node in p.after && RecordedIn(a, p.after)
  {
    assert Faithful(a, p.info, p.before);
    if a.node in p.after && RecordedIn(a, p.after) {
      forall q: Pass, b: Attempt | NextAttempt(p, q, b) && b.node == a.node ensures b.at > a.at + HOUR {
        assert Faithful(b, q.info, q.before);
      }
    } else {
      var q := Repeat(p, a);
      var b := q.info.attempts[0];
      assert a.node in p.after ==> p.after == p.before;
      assert Faithful(b, q.info, q.before);
      assert NextAttempt(p, q, b);
    }
  }

  /** The entry of a node outside the cluster gives a full resync no other reason for removing it than its mark. */
  predicate OtherwiseKept(info: PassInfo, e: CacheEntry) {
    info.end - e.lastSeen <= HOUR && e.ipAddress != "" && Exists(info.oneAgents, e.instance)
  }

  predicate Attempted(info: PassInfo, node: string) {
    exists i :: 0 <= i < |info.attempts| && info.attempts[i].node == node
  }

  /** After an unsent event the entry stays, with the mark of the attempt. */
  lemma UnsentKeepsMark(p: Pass, cluster: set<string>, a: Attempt)
    requires LegalPass(p.info, p.before, p.after) && Resynced(p.info, cluster, p.before, p.after)
    requires a in p.info.attempts && !a.sent && a.node !in cluster && Decodes(p.before, a.node)
    ensures a.node in p.after && p.after[a.node] == Encoded(p.before[a.node].entry.(lastMarked := a.at))
  {
    assert NodeResynced(p.info, cluster, p.before, p.after, a.node);
    assert AttemptFor(p.info, a.node, false);
  }

  /**
   * The full resync after one that could not send a node's event: it removes the entry without any attempt, so that no
   * event is ever sent, exactly when it comes within the hour after the failed one.
   */
  lemma SilentRemovalIff(p: Pass, q: Pass, clusterP: set<string>, clusterQ: set<string>, a: Attempt)
    requires LegalPass(p.info, p.before, p.after) && Resynced(p.info, clusterP, p.before, p.after)
    requires LegalPass(q.info, q.before, q.after) && Resynced(q.info, clusterQ, q.before, q.after)
      && q.before == p.after
    requires a in p.info.attempts && !a.sent && a.node !in clusterP && a.node !in clusterQ && Decodes(p.before, a.node)
    requires OtherwiseKept(q.info, p.before[a.node].entry)
    requires q.info.end <= a.at + HOUR || q.info.start > a.at + HOUR
    ensures a.node !in q.after && !Attempted(q.info, a.node) <==> q.info.end <= a.at + HOUR
  {
    UnsentKeepsMark(p, clusterP, a);
    assert NodeResynced(q.info, clusterQ, q.before, q.after, a.node);
    assert LegalNode(q.info, a.node, At(q.before, a.node), At(q.after, a.node));
    if Attempted(q.info, a.node) {
      var i :| 0 <= i < |q.info.attempts| && q.info.attempts[i].node == a.node;
      assert Faithful(q.info.attempts[i], q.info, q.before);
    } else {
      assert !AttemptFor(q.info, a.node, true) && !AttemptFor(q.info, a.node, false);
    }
  }
}
