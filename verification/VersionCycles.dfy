/** Sequences of versions, each newer than the one before, that come back to where they began. */
module VersionCycles {
  import opened Common
  import opened Text
  import opened Versions

  /** Each version is older than the next one, which is decided at the given position. */
  predicate Ascends(cs: seq<seq<string>>, ks: seq<nat>) {
    |cs| == |ks| + 1 && forall i :: 0 <= i < |ks| ==> DecidedAt(cs[i], cs[i + 1], ks[i])
  }

  /** A cycle whose steps are all decided at position k or later, and at least one of them at k. */
  predicate CycleAt(cs: seq<seq<string>>, ks: seq<nat>, k: nat) {
    && Ascends(cs, ks) && ks != [] && cs[0] == cs[|ks|]
    && (forall i :: 0 <= i < |ks| ==> ks[i] >= k)
    && k in ks
  }

  /** The version ends at position k. */
  predicate EndsAt(c: seq<string>, k: nat) {
    |c| == k + 1
  }

  predicate NumberAt(c: seq<string>, k: nat) {
    k < |c| && Atoi(c[k]).Some?
  }

  function ValueAt(c: seq<string>, k: nat): int
    requires NumberAt(c, k)
  {
    Atoi(c[k]).value
  }

  /** No version that ends at position k is opposed there to one that goes on. */
  predicate NoneOpposed(cs: seq<seq<string>>, k: nat) {
    && (forall i :: 0 <= i < |cs| ==> |cs[i]| > k)
    && (forall i, j :: 0 <= i < |cs| && 0 <= j < |cs| && EndsAt(cs[i], k) && !EndsAt(cs[j], k) ==>
          !Opposed(cs[i][k], cs[j][k]))
  }

  lemma StepLengths(cs: seq<seq<string>>, ks: seq<nat>, k: nat, i: nat)
    requires CycleAt(cs, ks, k) && i < |cs|
    ensures |cs[i]| > k
    ensures !EndsAt(cs[i], k) ==> NumberAt(cs[i], k)
  {
    var n := if i == |ks| then 0 else i;
    assert DecidedAt(cs[n], cs[n + 1], ks[n]);
    assert ks[n] > k ==> SameNumber(cs[n][k], cs[n + 1][k]);
  }

  // ---------- walking along a cycle that starts with a version going on behind k ----------

  predicate StrictBy(ks: seq<nat>, k: nat, i: nat) {
    exists j :: 0 <= j < i && j < |ks| && ks[j] == k
  }

  /** The short version at i was entered, as a number above the start, and is above that entry in bytes. */
  predicate EnteredAt(cs: seq<seq<string>>, k: nat, start: int, i: nat, s: nat) {
    && s <= i < |cs| && EndsAt(cs[s], k) && NumberAt(cs[s], k) && start < ValueAt(cs[s], k)
    && |cs[i]| > k && (s == i || Less(cs[s][k], cs[i][k]))
  }

  ghost predicate Ahead(cs: seq<seq<string>>, ks: seq<nat>, k: nat, start: int, i: nat) {
    && i < |cs| && |cs[i]| > k
    && if EndsAt(cs[i], k) then exists s: nat :: EnteredAt(cs, k, start, i, s)
       else NumberAt(cs[i], k) && start <= ValueAt(cs[i], k) && (StrictBy(ks, k, i) ==> start < ValueAt(cs[i], k))
  }

  /** Positions where numbers go up, or stay the same. */
  predicate Rises(c: seq<string>, d: seq<string>, k: nat, decided: bool) {
    NumberAt(c, k) && NumberAt(d, k)
        && if decided then ValueAt(c, k) < ValueAt(d, k) else ValueAt(c, k) == ValueAt(d, k)
  }

  lemma StepRises(cs: seq<seq<string>>, ks: seq<nat>, k: nat, i: nat)
    requires CycleAt(cs, ks, k) && i < |ks| && |cs[i]| > k && !EndsAt(cs[i], k)
    ensures Rises(cs[i], cs[i + 1], k, ks[i] == k)
    ensures ks[i] > k ==> !EndsAt(cs[i + 1], k)
  {
    assert DecidedAt(cs[i], cs[i + 1], ks[i]);
    if ks[i] > k {
      assert SameNumber(cs[i][k], cs[i + 1][k]);
    }
  }

  lemma StrictNext(ks: seq<nat>, k: nat, i: nat)
    requires i < |ks|
    ensures StrictBy(ks, k, i + 1) <==> StrictBy(ks, k, i) || ks[i] == k
  {
  }

  /** A step from a version that goes on compares numbers. */
  lemma LongStep(cs: seq<seq<string>>, ks: seq<nat>, k: nat, start: int, i: nat)
    requires CycleAt(cs, ks, k) && i < |ks| && !EndsAt(cs[i], k) && Ahead(cs, ks, k, start, i)
    ensures Ahead(cs, ks, k, start, i + 1)
  {
    StepRises(cs, ks, k, i);
    StrictNext(ks, k, i);
    if EndsAt(cs[i + 1], k) {
      assert EnteredAt(cs, k, start, i + 1, i + 1);
    }
  }

  /** A step from a version that ends compares bytes; leaving again cannot fall behind the entry as a number. */
  lemma ShortStep(cs: seq<seq<string>>, ks: seq<nat>, k: nat, start: int, i: nat)
    requires CycleAt(cs, ks, k) && NoneOpposed(cs, k) && i < |ks| && EndsAt(cs[i], k) && Ahead(cs, ks, k, start, i)
    ensures Ahead(cs, ks, k, start, i + 1)
  {
    StepLengths(cs, ks, k, i + 1);
    assert DecidedAt(cs[i], cs[i + 1], ks[i]);
    assert ks[i] == k && Less(cs[i][k], cs[i + 1][k]);
    var s: nat :| EnteredAt(cs, k, start, i, s);
    EntryBelow(cs[s][k], cs[i][k], cs[i + 1][k], s == i);
    Leaving(cs, ks, k, start, i + 1, s);
  }

  /** Above its entry in bytes, a version either ends too, or is above it as a number. */
  lemma Leaving(cs: seq<seq<string>>, ks: seq<nat>, k: nat, start: int, i: nat, s: nat)
    requires CycleAt(cs, ks, k) && NoneOpposed(cs, k) && s < i < |cs|
    requires EndsAt(cs[s], k) && NumberAt(cs[s], k) && start < ValueAt(cs[s], k) && |cs[i]| > k
    requires Less(cs[s][k], cs[i][k])
    ensures Ahead(cs, ks, k, start, i)
  {
    StepLengths(cs, ks, k, i);
    if EndsAt(cs[i], k) {
      assert EnteredAt(cs, k, start, i, s);
    } else {
      assert !Opposed(cs[s][k], cs[i][k]);
    }
  }

  lemma EntryBelow(entry: string, x: string, y: string, same: bool)
    requires (if same then entry == x else Less(entry, x)) && Less(x, y)
    ensures Less(entry, y)
  {
    if !same {
      LessTransitive(entry, x, y);
    }
  }

  lemma AheadStart(cs: seq<seq<string>>, ks: seq<nat>, k: nat)
    requires cs != [] && NumberAt(cs[0], k) && !EndsAt(cs[0], k)
    ensures Ahead(cs, ks, k, ValueAt(cs[0], k), 0)
  {
    assert !StrictBy(ks, k, 0);
  }

  lemma Step(cs: seq<seq<string>>, ks: seq<nat>, k: nat, start: int, i: nat)
    requires CycleAt(cs, ks, k) && NoneOpposed(cs, k) && i < |ks| && Ahead(cs, ks, k, start, i)
    ensures Ahead(cs, ks, k, start, i + 1)
  {
    if EndsAt(cs[i], k) {
      ShortStep(cs, ks, k, start, i);
    } else {
      LongStep(cs, ks, k, start, i);
    }
  }

  lemma {:induction false} Climb(holds: nat -> bool, n: nat)
    requires holds(0) && forall i: nat :: i < n && holds(i) ==> holds(i + 1)
    ensures holds(n)
    decreases n
  {
    if n > 0 {
      Climb(holds, n - 1);
    }
  }

  lemma LongWalk(cs: seq<seq<string>>, ks: seq<nat>, k: nat, start: int)
    requires CycleAt(cs, ks, k) && NoneOpposed(cs, k) && Ahead(cs, ks, k, start, 0)
    ensures Ahead(cs, ks, k, start, |ks|)
  {
    ghost var holds := (i: nat) => Ahead(cs, ks, k, start, i);
    forall i: nat | i < |ks| && holds(i) ensures holds(i + 1) {
      Step(cs, ks, k, start, i);
    }
    Climb(holds, |ks|);
  }

  lemma StrictAtEnd(ks: seq<nat>, k: nat)
    requires k in ks
    ensures StrictBy(ks, k, |ks|)
  {
  }

  lemma NoLongStart(cs: seq<seq<string>>, ks: seq<nat>, k: nat)
    requires CycleAt(cs, ks, k) && NoneOpposed(cs, k)
    ensures EndsAt(cs[0], k)
  {
    if !EndsAt(cs[0], k) {
      StepLengths(cs, ks, k, 0);
      StrictAtEnd(ks, k);
      AheadStart(cs, ks, k);
      LongWalk(cs, ks, k, ValueAt(cs[0], k));
      assert false;
    }
  }

  // ---------- starting anywhere ----------

  /** Where position i of a cycle of m steps lies when the cycle is entered at p. */
  function Turn(m: nat, p: nat, i: nat): (j: nat)
    requires p < m && i <= m
    ensures j <= m && (i < m ==> j < m)
  {
    if i < m - p then p + i else i - (m - p)
  }

  function Turned<T>(s: seq<T>, m: nat, p: nat, n: nat): (r: seq<T>)
    requires p < m && n <= m + 1 && (n == m + 1 ==> |s| > m) && |s| >= m
    ensures |r| == n && forall i :: 0 <= i < n ==> r[i] == s[Turn(m, p, i)]
  {
    seq(n, i requires 0 <= i < n => s[Turn(m, p, i)])
  }

  lemma TurnedStep(cs: seq<seq<string>>, ks: seq<nat>, k: nat, p: nat, i: nat)
    requires CycleAt(cs, ks, k) && p < |ks| && i < |ks|
    ensures DecidedAt(cs[Turn(|ks|, p, i)], cs[Turn(|ks|, p, i + 1)], ks[Turn(|ks|, p, i)])
  {
    var j := Turn(|ks|, p, i);
    assert DecidedAt(cs[j], cs[j + 1], ks[j]);
  }

  /** The same cycle, entered at p. */
  lemma Rotated(cs: seq<seq<string>>, ks: seq<nat>, k: nat, p: nat)
    requires CycleAt(cs, ks, k) && NoneOpposed(cs, k) && p < |ks|
    ensures var cs', ks' := Turned(cs, |ks|, p, |ks| + 1), Turned(ks, |ks|, p, |ks|);
            CycleAt(cs', ks', k) && NoneOpposed(cs', k) && cs'[0] == cs[p]
  {
    var m := |ks|;
    var cs', ks' := Turned(cs, m, p, m + 1), Turned(ks, m, p, m);
    forall i | 0 <= i < m ensures DecidedAt(cs'[i], cs'[i + 1], ks'[i]) {
      TurnedStep(cs, ks, k, p, i);
    }
    StillDecided(ks, k, p);
  }

  lemma StillDecided(ks: seq<nat>, k: nat, p: nat)
    requires k in ks && p < |ks|
    ensures k in Turned(ks, |ks|, p, |ks|)
  {
    var m, ks' := |ks|, Turned(ks, |ks|, p, |ks|);
    var j :| 0 <= j < m && ks[j] == k;
    assert ks'[if j >= p then j - p else j + (m - p)] == k;
  }

  lemma {:induction false} ShortWalk(cs: seq<seq<string>>, ks: seq<nat>, k: nat, i: nat)
    requires CycleAt(cs, ks, k) && 0 < i < |cs| && forall j :: 0 <= j < |cs| ==> EndsAt(cs[j], k)
    ensures |cs[0]| > k && |cs[i]| > k && Less(cs[0][k], cs[i][k])
    decreases i
  {
    assert DecidedAt(cs[i - 1], cs[i], ks[i - 1]);
    if i > 1 {
      ShortWalk(cs, ks, k, i - 1);
      LessTransitive(cs[0][k], cs[i - 1][k], cs[i][k]);
    }
  }

  lemma CycleOpposes(cs: seq<seq<string>>, ks: seq<nat>, k: nat)
    requires CycleAt(cs, ks, k)
    ensures !NoneOpposed(cs, k)
  {
    if NoneOpposed(cs, k) {
      forall p | 0 <= p < |ks| ensures EndsAt(cs[p], k) {
        Rotated(cs, ks, k, p);
        NoLongStart(Turned(cs, |ks|, p, |ks| + 1), Turned(ks, |ks|, p, |ks|), k);
      }
      ShortWalk(cs, ks, k, |ks|);
      LessIrreflexive(cs[0][k]);
      assert false;
    }
  }

  // ---------- versions ----------

  lemma AgreeTransitive(aa: seq<string>, bb: seq<string>, cc: seq<string>, k: nat)
    requires Agree(aa, bb, k) && Agree(bb, cc, k)
    ensures Agree(aa, cc, k)
  {
    forall p | 0 <= p < k ensures SameNumber(aa[p], cc[p]) {
      assert SameNumber(aa[p], bb[p]) && SameNumber(bb[p], cc[p]);
    }
  }

  lemma StepAgrees(cs: seq<seq<string>>, ks: seq<nat>, k: nat, i: nat)
    requires CycleAt(cs, ks, k) && i < |ks|
    ensures Agree(cs[i], cs[i + 1], k)
  {
    assert DecidedAt(cs[i], cs[i + 1], ks[i]);
  }

  lemma SelfAgrees(cs: seq<seq<string>>, ks: seq<nat>, k: nat, i: nat)
    requires CycleAt(cs, ks, k) && i < |cs|
    ensures Agree(cs[i], cs[i], k)
  {
    var n := if i == |ks| then 0 else i;
    StepAgrees(cs, ks, k, n);
    AgreeSymmetric(cs[n], cs[n + 1], k);
    AgreeTransitive(cs[n], cs[n + 1], cs[n], k);
  }

  lemma {:induction false} AgreeAlong(cs: seq<seq<string>>, ks: seq<nat>, k: nat, i: nat, j: nat)
    requires CycleAt(cs, ks, k) && i <= j < |cs|
    ensures Agree(cs[i], cs[j], k)
    decreases j
  {
    if i == j {
      SelfAgrees(cs, ks, k, i);
    } else {
      AgreeAlong(cs, ks, k, i, j - 1);
      StepAgrees(cs, ks, k, j - 1);
      AgreeTransitive(cs[i], cs[j - 1], cs[j], k);
    }
  }

  lemma AgreeSymmetric(aa: seq<string>, bb: seq<string>, k: nat)
    requires Agree(aa, bb, k)
    ensures Agree(bb, aa, k)
  {
  }

  ghost predicate Newer(vs: seq<string>) {
    forall i :: 0 < i < |vs| ==> Compare(vs[i - 1], vs[i]).Newer?
  }

  function AllComponents(vs: seq<string>): (cs: seq<seq<string>>)
    ensures |cs| == |vs|
  {
    seq(|vs|, i requires 0 <= i < |vs| => Components(vs[i]))
  }

  lemma AscendsNext(cs: seq<seq<string>>, ks: seq<nat>, c: seq<string>, k: nat)
    requires Ascends(cs, ks) && DecidedAt(cs[|ks|], c, k)
    ensures Ascends(cs + [c], ks + [k])
  {
    var cs', ks' := cs + [c], ks + [k];
    forall i | 0 <= i < |ks'| ensures DecidedAt(cs'[i], cs'[i + 1], ks'[i]) {
      if i < |ks| {
        assert DecidedAt(cs[i], cs[i + 1], ks[i]);
      }
    }
  }

  lemma {:induction false} Positions(vs: seq<string>) returns (ks: seq<nat>)
    requires vs != [] && Newer(vs)
    ensures Ascends(AllComponents(vs), ks)
    decreases |vs|
  {
    if |vs| == 1 {
      ks := [];
    } else {
      var n := |vs| - 1;
      var before := vs[..n];
      var last := Positions(before);
      var k := NewerWitness(vs[n - 1], vs[n]);
      AscendsNext(AllComponents(before), last, Components(vs[n]), k);
      assert AllComponents(before) + [Components(vs[n])] == AllComponents(vs);
      ks := last + [k];
    }
  }

  lemma {:induction false} Least(ks: seq<nat>) returns (k: nat)
    requires ks != []
    ensures k in ks && forall i :: 0 <= i < |ks| ==> ks[i] >= k
    decreases |ks|
  {
    k := ks[0];
    if |ks| > 1 {
      var rest := Least(ks[1..]);
      assert forall i :: 0 < i < |ks| ==> ks[i] == ks[1..][i - 1];
      if rest < k { k := rest; }
    }
  }

  /**
   * Versions each newer than the one before can only come back to the first of them if two of them are opposed: one
   * ends
   * where they first differ, and bytes and numbers disagree there.
   */
  lemma NewerCycleHasOpposed(vs: seq<string>) returns (i: nat, j: nat)
    requires |vs| > 1 && vs[0] == vs[|vs| - 1] && Newer(vs)
    ensures i < |vs| && j < |vs| && OpposedVersions(vs[i], vs[j])
  {
    var cs := AllComponents(vs);
    var ks := Positions(vs);
    var k := Least(ks);
    assert CycleAt(cs, ks, k);
    CycleOpposes(cs, ks, k);
    forall n | 0 <= n < |cs| ensures |cs[n]| > k {
      StepLengths(cs, ks, k, n);
    }
    i, j := OpposedPair(cs, k);
    AllAgree(cs, ks, k, i, j);
  }

  lemma OpposedPair(cs: seq<seq<string>>, k: nat) returns (i: nat, j: nat)
    requires !NoneOpposed(cs, k) && forall n :: 0 <= n < |cs| ==> |cs[n]| > k
    ensures i < |cs| && j < |cs| && EndsAt(cs[i], k) && !EndsAt(cs[j], k) && Opposed(cs[i][k], cs[j][k])
  {
    i, j :| 0 <= i < |cs| && 0 <= j < |cs| && EndsAt(cs[i], k) && !EndsAt(cs[j], k) && Opposed(cs[i][k], cs[j][k]);
  }

  lemma AllAgree(cs: seq<seq<string>>, ks: seq<nat>, k: nat, i: nat, j: nat)
    requires CycleAt(cs, ks, k) && i < |cs| && j < |cs|
    ensures Agree(cs[i], cs[j], k)
  {
    if i <= j {
      AgreeAlong(cs, ks, k, i, j);
    } else {
      AgreeAlong(cs, ks, k, j, i);
      AgreeSymmetric(cs[j], cs[i], k);
    }
  }
}
