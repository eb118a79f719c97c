/** Recording the version and hash of the immutable image. */
module ImageVersions {
  import opened Common
  import opened OneAgentApi
  import Versions
  import VersionCycles

  const IMAGE_PROBE_INTERVAL: int := 15 * MINUTE

  datatype ImageVersion = ImageVersion(version: string, hash: string)

  /** What a pass finds on the way to the registry; each false is an error there, and image None one of the registry. */
  datatype ImageInputs = ImageInputs(
    now: Time,
    imageName: bool,
    pullSecret: bool,
    dockerConfig: bool,
    image: Option<ImageVersion>)

  datatype ImageEnd = ImageEnd(status: OneAgentStatus, update: bool, failed: bool, panicked: bool)

  predicate ProbeDue(spec: OneAgentSpec, s: OneAgentStatus, now: Time) {
    && s.useImmutableImage && !spec.disableAgentUpdate
    && (s.lastImageVersionProbe.Some? ==> s.lastImageVersionProbe.value + IMAGE_PROBE_INTERVAL <= now)
  }

  /** Whether a probed version replaces the recorded one. */
  predicate Replaces(recorded: string, probed: string) {
    probed != recorded && (recorded == "" || Versions.Compare(recorded, probed).Newer?)
  }

  predicate CannotCompare(recorded: string, probed: string) {
    probed != recorded && recorded != "" && Versions.Compare(recorded, probed).Panicked?
  }

  function ImageStage(spec: OneAgentSpec, s: OneAgentStatus, inputs: ImageInputs): ImageEnd {
    if !ProbeDue(spec, s, inputs.now) then ImageEnd(s, false, false, false)
    else if spec.image == "" && !inputs.imageName then ImageEnd(s, false, true, false)
    else
      var probed := s.(lastImageVersionProbe := Some(inputs.now));
      if !inputs.pullSecret || !inputs.dockerConfig || inputs.image.None? then ImageEnd(probed, true, true, false)
      else
        var v := inputs.image.value;
        if CannotCompare(s.imageVersion, v.version) then ImageEnd(probed, true, false, true)
        else if Replaces(s.imageVersion, v.version) then
          ImageEnd(probed.(imageVersion := v.version, imageHash := v.hash), true, false, false)
        else ImageEnd(probed, true, false, false)
  }

  method ReconcileImageVersion(oa: OneAgent, inputs: ImageInputs) returns (update: bool, failed: bool, panicked: bool)
    modifies oa`status
    ensures ImageEnd(oa.status, update, failed, panicked) == ImageStage(oa.spec, old(oa.status), inputs)
  {
    if !oa.status.useImmutableImage || oa.spec.disableAgentUpdate {
      return false, false, false;
    }
    var last := oa.status.lastImageVersionProbe;
    if last.Some? && last.value + IMAGE_PROBE_INTERVAL > inputs.now {
      return false, false, false;
    }
    if oa.spec.image == "" {
      if !inputs.imageName {
        return false, true, false;
      }
    }
    oa.status := oa.status.(lastImageVersionProbe := Some(inputs.now));
    if !inputs.pullSecret {
      return true, true, false;
    }
    if !inputs.dockerConfig {
      return true, true, false;
    }
    if inputs.image.None? {
      return true, true, false;
    }
    var ver := inputs.image.value;
    var oldVersion := oa.status.imageVersion;
    if ver.version != oldVersion {
      var replace := oldVersion == "";
      if !replace {
        var verdict := Versions.IsDesiredNewer(oldVersion, ver.version);
        if verdict.Panicked? {
          return true, false, true;
        }
        replace := verdict.Newer?;
      }
      if replace {
        oa.status := oa.status.(imageHash := ver.hash);
        oa.status := oa.status.(imageVersion := ver.version);
      }
    }
    return true, false, false;
  }

  /** A stage without an update leaves the status alone. */
  lemma NoUpdateNoChange(spec: OneAgentSpec, s: OneAgentStatus, inputs: ImageInputs)
    requires !ImageStage(spec, s, inputs).update
    ensures ImageStage(spec, s, inputs).status == s && !ImageStage(spec, s, inputs).panicked
  {
  }

  // ---------- whole runs ----------

  /** A version of a fixed component count, or none at all. */
  predicate Shaped(version: string, count: nat) {
    version == "" || |Versions.Components(version)| == count
  }

  predicate InputsShaped(inputs: ImageInputs, count: nat) {
    inputs.image.Some? ==> Shaped(inputs.image.value.version, count)
  }

  /** No version is newer than another by being empty, and comparing with an empty one never panics. */
  lemma EmptyNeverNewer(recorded: string)
    ensures Versions.Compare(recorded, "") == Versions.NotNewer
  {
  }

  /** The statuses after each pass of a run, starting with the initial one. */
  function Statuses(spec: OneAgentSpec, s: OneAgentStatus, run: seq<ImageInputs>): (r: seq<OneAgentStatus>)
    ensures |r| == |run| + 1 && r[0] == s
    decreases |run|
  {
    if run == [] then [s] else [s] + Statuses(spec, ImageStage(spec, s, run[0]).status, run[1..])
  }

  lemma {:induction false} StatusesStep(spec: OneAgentSpec, s: OneAgentStatus, run: seq<ImageInputs>, i: nat)
    requires i < |run|
    ensures Statuses(spec, s, run)[i + 1] == ImageStage(spec, Statuses(spec, s, run)[i], run[i]).status
    decreases |run|
  {
    if i > 0 {
      StatusesStep(spec, ImageStage(spec, s, run[0]).status, run[1..], i - 1);
    }
  }

  /** One pass: the record stays, or a strictly newer version replaces it together with its hash. */
  lemma ShapedStep(spec: OneAgentSpec, s: OneAgentStatus, inputs: ImageInputs, count: nat)
    requires Shaped(s.imageVersion, count) && InputsShaped(inputs, count)
    ensures var end := ImageStage(spec, s, inputs);
            && !end.panicked
            && Shaped(end.status.imageVersion, count)
            && (end.status.imageVersion != s.imageVersion ==>
                  && end.status.imageVersion != ""
                  && inputs.image == Some(ImageVersion(end.status.imageVersion, end.status.imageHash))
                  && (s.imageVersion == "" || Versions.Compare(s.imageVersion, end.status.imageVersion).Newer?))
            && (end.status.imageVersion == s.imageVersion ==> end.status.imageHash == s.imageHash)
  {
    if inputs.image.Some? {
      EmptyNeverNewer(s.imageVersion);
      if s.imageVersion != "" && inputs.image.value.version != "" {
        Versions.SameShapeNeverPanics(s.imageVersion, inputs.image.value.version);
      }
    }
  }

  /** A later record: the same version, or a strictly newer one, once there is one. */
  predicate Succeeds(earlier: string, later: string, count: nat) {
    && Shaped(earlier, count) && Shaped(later, count)
    && (earlier != "" ==> later != "" && (later == earlier || Versions.Compare(earlier, later).Newer?))
  }

  lemma SucceedsTransitive(a: string, b: string, c: string, count: nat)
    requires Succeeds(a, b, count) && Succeeds(b, c, count)
    ensures Succeeds(a, c, count)
  {
    if a != "" && b != a && c != b {
      Versions.NewerTransitive(a, b, c);
    }
  }

  lemma SucceedsStep(spec: OneAgentSpec, s: OneAgentStatus, inputs: ImageInputs, count: nat)
    requires Shaped(s.imageVersion, count) && InputsShaped(inputs, count)
    ensures Succeeds(s.imageVersion, ImageStage(spec, s, inputs).status.imageVersion, count)
  {
    ShapedStep(spec, s, inputs, count);
  }

  /**
   * The recorded versions of a run form a strict chain: later ones are equal to or strictly newer than earlier ones.
   */
  lemma {:induction false} RecordedVersionsChain(
      spec: OneAgentSpec, s: OneAgentStatus, run: seq<ImageInputs>, count: nat, i: nat, j: nat)
    requires Shaped(s.imageVersion, count) && forall k :: 0 <= k < |run| ==> InputsShaped(run[k], count)
    requires i <= j <= |run|
    ensures Succeeds(Statuses(spec, s, run)[i].imageVersion, Statuses(spec, s, run)[j].imageVersion, count)
    decreases j
  {
    var all := Statuses(spec, s, run);
    if i < j {
      RecordedVersionsChain(spec, s, run, count, i, j - 1);
    } else if j > 0 {
      RecordedVersionsChain(spec, s, run, count, j - 1, j - 1);
    }
    if j > 0 {
      StatusesStep(spec, s, run, j - 1);
      SucceedsStep(spec, all[j - 1], run[j - 1], count);
      if i < j {
        SucceedsTransitive(all[i].imageVersion, all[j - 1].imageVersion, all[j].imageVersion, count);
      }
    }
  }

  /** Version and hash always come from one probe, unless they are still the ones the run started with. */
  lemma {:induction false} HashFromSameProbe(spec: OneAgentSpec, s: OneAgentStatus, run: seq<ImageInputs>, j: nat)
    requires j <= |run|
    ensures var r := Statuses(spec, s, run)[j];
            || (r.imageVersion == s.imageVersion && r.imageHash == s.imageHash)
            || exists k :: 0 <= k < j && run[k].image == Some(ImageVersion(r.imageVersion, r.imageHash))
    decreases j
  {
    if j > 0 {
      HashFromSameProbe(spec, s, run, j - 1);
      StatusesStep(spec, s, run, j - 1);
      var before, after := Statuses(spec, s, run)[j - 1], Statuses(spec, s, run)[j];
      if after.imageVersion != before.imageVersion || after.imageHash != before.imageHash {
        assert run[j - 1].image == Some(ImageVersion(after.imageVersion, after.imageHash));
      }
    }
  }

  /** On any clock, recorded probe times are equal or at least fifteen minutes apart. */
  lemma {:induction false} ImageProbesSpaced(
      spec: OneAgentSpec, s: OneAgentStatus, run: seq<ImageInputs>, i: nat, j: nat)
    requires i <= j <= |run|
    requires Statuses(spec, s, run)[i].lastImageVersionProbe.Some?
    ensures var ti, tj := Statuses(spec, s, run)[i].lastImageVersionProbe,
      Statuses(spec, s, run)[j].lastImageVersionProbe;
            tj.Some? && (tj == ti || ti.value + 15 * 60 <= tj.value)
    decreases j
  {
    if i < j {
      ImageProbesSpaced(spec, s, run, i, j - 1);
      StatusesStep(spec, s, run, j - 1);
    }
  }

  // ---------- without one component count ----------

  /** Two versions replace each other exactly when each is newer than the other. */
  lemma ReplaceEachOtherIff(v: string, w: string)
    ensures Replaces(v, w) && Replaces(w, v) <==> Versions.OpposedVersions(v, w) || Versions.OpposedVersions(w, v)
  {
    Versions.MutuallyNewerIff(v, w);
    Versions.NewerIrreflexive(v);
    EmptyNeverNewer(v);
    EmptyNeverNewer(w);
  }

  /** A probe at the given time that gets through to the registry. */
  function Probe(now: Time, version: string): ImageInputs {
    ImageInputs(now, true, true, true, Some(ImageVersion(version, "")))
  }

  /** The earliest time at which the next probe is due. */
  function DueTime(s: OneAgentStatus): Time {
    if s.lastImageVersionProbe.Some? then s.lastImageVersionProbe.value + IMAGE_PROBE_INTERVAL else 0
  }

  /** The version recorded after i passes of a run. */
  function RecordAt(spec: OneAgentSpec, s: OneAgentStatus, run: seq<ImageInputs>, i: nat): string
    requires i <= |run|
  {
    Statuses(spec, s, run)[i].imageVersion
  }

  /** The two passes of the run record w and then the version the run started with. */
  predicate GoesAndReturns(spec: OneAgentSpec, s: OneAgentStatus, w: string, run: seq<ImageInputs>) {
    |run| == 2 && RecordAt(spec, s, run, 1) == w && RecordAt(spec, s, run, 2) == s.imageVersion
  }

  lemma RecordChangesOnlyByReplacing(spec: OneAgentSpec, s: OneAgentStatus, inputs: ImageInputs)
    ensures var v := ImageStage(spec, s, inputs).status.imageVersion;
            v != s.imageVersion ==>
              Replaces(s.imageVersion, v) && inputs.image.Some? && v == inputs.image.value.version
  {
  }

  lemma ReturningRun(spec: OneAgentSpec, s: OneAgentStatus, w: string) returns (run: seq<ImageInputs>)
    requires s.useImmutableImage && !spec.disableAgentUpdate
    requires Replaces(s.imageVersion, w) && Replaces(w, s.imageVersion)
    ensures GoesAndReturns(spec, s, w, run)
    ensures forall i :: 0 <= i < |run| ==> ProbesFrom(run[i], {s.imageVersion, w})
  {
    var first := Probe(DueTime(s), w);
    var s1 := ImageStage(spec, s, first).status;
    run := [first, Probe(DueTime(s1), s.imageVersion)];
    StatusesStep(spec, s, run, 0);
    StatusesStep(spec, s, run, 1);
  }

  /** What the registry answers to a probe, if anything, is one of these versions. */
  predicate ProbesFrom(inputs: ImageInputs, offered: set<string>) {
    inputs.image.Some? ==> inputs.image.value.version in offered
  }

  predicate AllFrom(run: seq<ImageInputs>, offered: set<string>) {
    forall i :: 0 <= i < |run| ==> ProbesFrom(run[i], offered)
  }

  /** The record leaves a version and is back at it later. */
  predicate ComesBackAt(spec: OneAgentSpec, s: OneAgentStatus, run: seq<ImageInputs>, i: nat, j: nat, l: nat) {
    && i < j < l <= |run|
    && RecordAt(spec, s, run, j) != RecordAt(spec, s, run, i)
    && RecordAt(spec, s, run, l) == RecordAt(spec, s, run, i)
  }

  ghost predicate ComesBack(spec: OneAgentSpec, s: OneAgentStatus, run: seq<ImageInputs>) {
    exists i: nat, j: nat, l: nat :: ComesBackAt(spec, s, run, i, j, l)
  }

  /** Some run of probes from the offered versions comes back to a version it left. */
  ghost predicate CanComeBack(spec: OneAgentSpec, s: OneAgentStatus, offered: set<string>) {
    exists run: seq<ImageInputs> :: AllFrom(run, offered) && ComesBack(spec, s, run)
  }

  /** Some run of probes from the offered versions records this one. */
  ghost predicate CanReach(spec: OneAgentSpec, s: OneAgentStatus, offered: set<string>, v: string) {
    exists run: seq<ImageInputs> :: AllFrom(run, offered) && RecordAt(spec, s, run, |run|) == v
  }

  // ---------- what a run records ----------

  lemma {:induction false} StatusesPrefix(spec: OneAgentSpec, s: OneAgentStatus, run: seq<ImageInputs>, n: nat, i: nat)
    requires i <= n <= |run|
    ensures Statuses(spec, s, run[..n])[i] == Statuses(spec, s, run)[i]
    decreases i
  {
    if i > 0 {
      StatusesPrefix(spec, s, run, n, i - 1);
      StatusesStep(spec, s, run, i - 1);
      StatusesStep(spec, s, run[..n], i - 1);
    }
  }

  lemma {:induction false} StatusesAppend(
      spec: OneAgentSpec, s: OneAgentStatus, a: seq<ImageInputs>, b: seq<ImageInputs>, i: nat)
    requires i <= |b|
    ensures Statuses(spec, s, a + b)[|a| + i] == Statuses(spec, Statuses(spec, s, a)[|a|], b)[i]
    decreases i
  {
    if i == 0 {
      assert (a + b)[..|a|] == a;
      StatusesPrefix(spec, s, a + b, |a|, |a|);
    } else {
      StatusesAppend(spec, s, a, b, i - 1);
      StatusesStep(spec, s, a + b, |a| + i - 1);
      StatusesStep(spec, Statuses(spec, s, a)[|a|], b, i - 1);
    }
  }

  lemma {:induction false} StaysImmutable(spec: OneAgentSpec, s: OneAgentStatus, run: seq<ImageInputs>, i: nat)
    requires i <= |run|
    ensures Statuses(spec, s, run)[i].useImmutableImage == s.useImmutableImage
    decreases i
  {
    if i > 0 {
      StaysImmutable(spec, s, run, i - 1);
      StatusesStep(spec, s, run, i - 1);
    }
  }

  /** The changes of the record between two passes: each version newer than the one before, and offered by a probe. */
  ghost predicate Recorded(spec: OneAgentSpec, s: OneAgentStatus, run: seq<ImageInputs>, offered: set<string>,
                           i: nat, l: nat, vs: seq<string>) {
    && i <= l <= |run| && vs != [] && VersionCycles.Newer(vs)
    && vs[0] == RecordAt(spec, s, run, i) && vs[|vs| - 1] == RecordAt(spec, s, run, l)
    && (forall n :: 0 < n < |vs| ==> vs[n] in offered)
    && (forall n :: 0 <= n < |vs| ==> RecordedBy(spec, s, run, vs[n]))
  }

  predicate RecordedBy(spec: OneAgentSpec, s: OneAgentStatus, run: seq<ImageInputs>, v: string) {
    exists n :: 0 <= n <= |run| && RecordAt(spec, s, run, n) == v
  }

  /** A pass keeps the record, or replaces it by a newer version that was offered. */
  lemma RecordStep(spec: OneAgentSpec, s: OneAgentStatus, run: seq<ImageInputs>, offered: set<string>, l: nat)
    requires AllFrom(run, offered) && l < |run| && RecordAt(spec, s, run, l) != ""
    ensures var v, w := RecordAt(spec, s, run, l), RecordAt(spec, s, run, l + 1);
            w != "" && (w == v || (Versions.Compare(v, w).Newer? && w in offered && RecordedBy(spec, s, run, w)))
  {
    var before := Statuses(spec, s, run)[l];
    StatusesStep(spec, s, run, l);
    RecordChangesOnlyByReplacing(spec, before, run[l]);
    EmptyNeverNewer(before.imageVersion);
    assert ProbesFrom(run[l], offered);
    assert RecordedBy(spec, s, run, RecordAt(spec, s, run, l + 1));
  }

  lemma RecordedNext(spec: OneAgentSpec, s: OneAgentStatus, run: seq<ImageInputs>, offered: set<string>,
                     i: nat, l: nat, vs: seq<string>, v: string)
    requires l < |run| && Recorded(spec, s, run, offered, i, l, vs) && v == RecordAt(spec, s, run, l + 1)
    requires v == vs[|vs| - 1]
          || (Versions.Compare(vs[|vs| - 1], v).Newer? && v in offered && RecordedBy(spec, s, run, v))
    ensures Recorded(spec, s, run, offered, i, l + 1, if v == vs[|vs| - 1] then vs else vs + [v])
  {
    if v != vs[|vs| - 1] {
      NewerNext(vs, v);
    }
  }

  lemma NewerNext(vs: seq<string>, v: string)
    requires vs != [] && VersionCycles.Newer(vs) && Versions.Compare(vs[|vs| - 1], v).Newer?
    ensures VersionCycles.Newer(vs + [v])
  {
    var more := vs + [v];
    forall i | 0 < i < |more| ensures Versions.Compare(more[i - 1], more[i]).Newer? {
      assert more[i - 1] == vs[i - 1];
    }
  }

  lemma {:induction false} Changes(spec: OneAgentSpec, s: OneAgentStatus, run: seq<ImageInputs>, offered: set<string>,
                                   i: nat, l: nat) returns (vs: seq<string>)
    requires AllFrom(run, offered) && i <= l <= |run| && RecordAt(spec, s, run, i) != ""
    ensures Recorded(spec, s, run, offered, i, l, vs) && RecordAt(spec, s, run, l) != ""
    ensures |vs| == 1 ==> forall j :: i <= j <= l ==> RecordAt(spec, s, run, j) == RecordAt(spec, s, run, i)
    decreases l
  {
    if i == l {
      vs := [RecordAt(spec, s, run, i)];
      assert RecordedBy(spec, s, run, vs[0]);
    } else {
      vs := Changes(spec, s, run, offered, i, l - 1);
      var v := RecordAt(spec, s, run, l);
      RecordStep(spec, s, run, offered, l - 1);
      RecordedNext(spec, s, run, offered, i, l - 1, vs, v);
      if v != vs[|vs| - 1] {
        vs := vs + [v];
      }
    }
  }

  lemma {:induction false} EmptyOnlyBefore(spec: OneAgentSpec, s: OneAgentStatus, run: seq<ImageInputs>, i: nat, l: nat)
    requires i <= l <= |run| && RecordAt(spec, s, run, i) != ""
    ensures RecordAt(spec, s, run, l) != ""
    decreases l
  {
    if i < l {
      EmptyOnlyBefore(spec, s, run, i, l - 1);
      StatusesStep(spec, s, run, l - 1);
      RecordChangesOnlyByReplacing(spec, Statuses(spec, s, run)[l - 1], run[l - 1]);
      EmptyNeverNewer(RecordAt(spec, s, run, l - 1));
    }
  }

  // ---------- exactly when the record can come back ----------

  /** Two offered versions that are opposed, the first of which can be recorded. */
  ghost predicate OpposedInReach(spec: OneAgentSpec, s: OneAgentStatus, offered: set<string>) {
    exists v, w :: v in offered && w in offered && Versions.OpposedVersions(v, w) && CanReach(spec, s, offered, v)
  }

  lemma RecordedIsReached(
      spec: OneAgentSpec, s: OneAgentStatus, run: seq<ImageInputs>, offered: set<string>, v: string)
    requires AllFrom(run, offered) && RecordedBy(spec, s, run, v)
    ensures CanReach(spec, s, offered, v)
  {
    var n :| 0 <= n <= |run| && RecordAt(spec, s, run, n) == v;
    StatusesPrefix(spec, s, run, n, n);
    assert AllFrom(run[..n], offered) && RecordAt(spec, s, run[..n], |run[..n]|) == v;
  }

  /** The changes of a record that comes back are a cycle of versions that were all offered. */
  lemma ReturningChanges(
      spec: OneAgentSpec, s: OneAgentStatus, run: seq<ImageInputs>, offered: set<string>, i: nat, j: nat, l: nat)
    returns (vs: seq<string>)
    requires AllFrom(run, offered) && ComesBackAt(spec, s, run, i, j, l)
    ensures |vs| > 1 && vs[0] == vs[|vs| - 1] && VersionCycles.Newer(vs)
    ensures forall n :: 0 <= n < |vs| ==> vs[n] in offered && RecordedBy(spec, s, run, vs[n])
  {
    if RecordAt(spec, s, run, i) == "" {
      EmptyOnlyBefore(spec, s, run, j, l);
      assert false;
    }
    vs := Changes(spec, s, run, offered, i, l);
    assert |vs| > 1;
    assert vs[0] == vs[|vs| - 1];
    forall n | 0 <= n < |vs| ensures vs[n] in offered && RecordedBy(spec, s, run, vs[n]) {
      assert n == 0 ==> vs[n] == vs[|vs| - 1];
    }
  }

  lemma ComingBackOpposes(
      spec: OneAgentSpec, s: OneAgentStatus, run: seq<ImageInputs>, offered: set<string>, i: nat, j: nat, l: nat)
    requires AllFrom(run, offered) && ComesBackAt(spec, s, run, i, j, l)
    ensures OpposedInReach(spec, s, offered)
  {
    var vs := ReturningChanges(spec, s, run, offered, i, j, l);
    var p, q := VersionCycles.NewerCycleHasOpposed(vs);
    RecordedIsReached(spec, s, run, offered, vs[p]);
  }

  lemma AllFromAppend(a: seq<ImageInputs>, b: seq<ImageInputs>, offered: set<string>)
    requires AllFrom(a, offered) && AllFrom(b, offered)
    ensures AllFrom(a + b, offered)
  {
  }

  lemma RecordAppend(
      spec: OneAgentSpec, s: OneAgentStatus, a: seq<ImageInputs>, b: seq<ImageInputs>, i: nat, n: nat)
    requires i <= |b| && n == |a| + i
    ensures RecordAt(spec, s, a + b, n) == RecordAt(spec, Statuses(spec, s, a)[|a|], b, i)
  {
    StatusesAppend(spec, s, a, b, i);
  }

  lemma AppendedReturn(spec: OneAgentSpec, s: OneAgentStatus, a: seq<ImageInputs>, b: seq<ImageInputs>, w: string)
    requires GoesAndReturns(spec, Statuses(spec, s, a)[|a|], w, b) && RecordAt(spec, s, a, |a|) != w
    ensures ComesBackAt(spec, s, a + b, |a|, |a| + 1, |a| + 2)
  {
    var n := |a|;
    RecordAppend(spec, s, a, b, 0, n);
    RecordAppend(spec, s, a, b, 1, n + 1);
    RecordAppend(spec, s, a, b, 2, n + 2);
  }

  lemma ComeBackAfter(spec: OneAgentSpec, s: OneAgentStatus, offered: set<string>, a: seq<ImageInputs>, w: string)
    requires s.useImmutableImage && !spec.disableAgentUpdate
    requires AllFrom(a, offered) && RecordAt(spec, s, a, |a|) in offered && w in offered
    requires Versions.OpposedVersions(RecordAt(spec, s, a, |a|), w)
    ensures CanComeBack(spec, s, offered)
  {
    var s1 := Statuses(spec, s, a)[|a|];
    StaysImmutable(spec, s, a, |a|);
    ReplaceEachOtherIff(s1.imageVersion, w);
    var b := ReturningRun(spec, s1, w);
    AllFromAppend(a, b, offered);
    AppendedReturn(spec, s, a, b, w);
    assert ComesBack(spec, s, a + b);
  }

  /**
   * Over runs of any length, the record can come back to a version it left exactly when two of the offered versions are
   * opposed and the first of them can be recorded.
   */
  lemma RecordReturnsIff(spec: OneAgentSpec, s: OneAgentStatus, offered: set<string>)
    requires s.useImmutableImage && !spec.disableAgentUpdate
    ensures CanComeBack(spec, s, offered) <==> OpposedInReach(spec, s, offered)
  {
    if CanComeBack(spec, s, offered) {
      var run: seq<ImageInputs> :| AllFrom(run, offered) && ComesBack(spec, s, run);
      var i: nat, j: nat, l: nat :| ComesBackAt(spec, s, run, i, j, l);
      ComingBackOpposes(spec, s, run, offered, i, j, l);
    }
    if OpposedInReach(spec, s, offered) {
      var v, w :| v in offered && w in offered && Versions.OpposedVersions(v, w) && CanReach(spec, s, offered, v);
      var a: seq<ImageInputs> :| AllFrom(a, offered) && RecordAt(spec, s, a, |a|) == v;
      ComeBackAfter(spec, s, offered, a, w);
    }
  }

  lemma ReachedFromNothing(spec: OneAgentSpec, s: OneAgentStatus, offered: set<string>, v: string)
    requires s.useImmutableImage && !spec.disableAgentUpdate && s.imageVersion == "" && v in offered && v != ""
    ensures CanReach(spec, s, offered, v)
  {
    var run := [Probe(DueTime(s), v)];
    StatusesStep(spec, s, run, 0);
    assert AllFrom(run, offered) && RecordAt(spec, s, run, |run|) == v;
  }

  /** With nothing recorded yet every version is in reach, so two opposed ones among those offered decide. */
  lemma FirstRecordReturnsIff(spec: OneAgentSpec, s: OneAgentStatus, offered: set<string>)
    requires s.useImmutableImage && !spec.disableAgentUpdate && s.imageVersion == ""
    ensures CanComeBack(spec, s, offered)
       <==> exists v, w :: v in offered && w in offered && Versions.OpposedVersions(v, w)
  {
    RecordReturnsIff(spec, s, offered);
    if v, w :| v in offered && w in offered && Versions.OpposedVersions(v, w) {
      EmptyNotOpposed(w);
      ReachedFromNothing(spec, s, offered, v);
    }
  }

  lemma EmptyNotOpposed(w: string)
    ensures !Versions.OpposedVersions("", w)
  {
    assert Versions.Components("") == [""];
  }

  /** For instance the record goes from "1.10" to "1.2.0" and back. */
  lemma RecordedVersionsCanCycle(spec: OneAgentSpec, s: OneAgentStatus) returns (run: seq<ImageInputs>)
    requires s.useImmutableImage && !spec.disableAgentUpdate && s.imageVersion == "1.10"
    ensures GoesAndReturns(spec, s, "1.2.0", run)
  {
    Versions.NewerCyclesAcrossShapes();
    ReplaceEachOtherIff("1.10", "1.2.0");
    run := ReturningRun(spec, s, "1.2.0");
  }
}
