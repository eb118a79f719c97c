/** Agent versions: printed by the API client, split, parsed and compared by the controller. */
module Versions {
  import opened Common
  import opened Text

  /** An agent version as the Dynatrace API reports it. */
  datatype AgentVersion = AgentVersion(major: int, minor: int, revision: int, timestamp: string) {

    /** The numbers are Go ints and the timestamp does not look like further components. */
    predicate Valid() {
      IsInt64(major) && IsInt64(minor) && IsInt64(revision) && Free(timestamp, '.')
    }

    /** Lexicographic order on the tuple itself. */
    predicate Before(v: AgentVersion) {
      || major < v.major
      || (major == v.major && minor < v.minor)
      || (major == v.major && minor == v.minor && revision < v.revision)
      || (major == v.major && minor == v.minor && revision == v.revision && Less(timestamp, v.timestamp))
    }
  }

  /** The string kept in the host cache for a version. */
  function Print(v: AgentVersion): string {
    Itoa(v.major) + "." + Itoa(v.minor) + "." + Itoa(v.revision) + "." + v.timestamp
  }

  function Components(version: string): (parts: seq<string>)
    ensures |parts| > 0
  {
    Split(version, '.')
  }

  /** Outcome of a comparison; Panicked is the index-out-of-range panic of the source. */
  datatype Verdict = Newer | NotNewer | Panicked

  /** What the comparison loop decides when it enters with index i. */
  function CompareFrom(aa: seq<string>, da: seq<string>, i: nat): Verdict
    requires i <= |aa|
    decreases |aa| - i
  {
    if i == |aa| then NotNewer
    else if i == |aa| - 1 then
      if i >= |da| then Panicked else if Less(aa[i], da[i]) then Newer else NotNewer
    else if Atoi(aa[i]).None? then NotNewer
    else if i >= |da| then Panicked
    else if Atoi(da[i]).None? then NotNewer
    else if Atoi(aa[i]).value < Atoi(da[i]).value then Newer
    else if Atoi(aa[i]).value > Atoi(da[i]).value then NotNewer
    else CompareFrom(aa, da, i + 1)
  }

  function Compare(actual: string, desired: string): Verdict {
    CompareFrom(Components(actual), Components(desired), 0)
  }

  method IsDesiredNewer(actual: string, desired: string) returns (verdict: Verdict)
    ensures verdict == Compare(actual, desired)
  {
    var aa := Components(actual);
    var da := Components(desired);
    verdict := CompareComponents(aa, da);
  }

  /** The loop over the components; its last round compares bytes, the others compare numbers. */
  method CompareComponents(aa: seq<string>, da: seq<string>) returns (verdict: Verdict)
    ensures verdict == CompareFrom(aa, da, 0)
  {
    var i := 0;
    while i < |aa|
      invariant 0 <= i <= |aa|
      invariant CompareFrom(aa, da, i) == CompareFrom(aa, da, 0)
    {
      if i == |aa| - 1 {
        if i >= |da| {
          return Panicked;
        }
        if Less(aa[i], da[i]) {
          return Newer;
        } else if Less(da[i], aa[i]) {
          LessTransitiveContra(aa[i], da[i]);
          return NotNewer;
        } else {
          return NotNewer;
        }
      }
      var av := Atoi(aa[i]);
      if av.None? {
        return NotNewer;
      }
      if i >= |da| {
        return Panicked;
      }
      var dv := Atoi(da[i]);
      if dv.None? {
        return NotNewer;
      }
      if av.value < dv.value {
        return Newer;
      }
      if av.value > dv.value {
        return NotNewer;
      }
      i := i + 1;
    }
    return NotNewer;
  }

  lemma LessTransitiveContra(a: string, b: string)
    requires Less(b, a)
    ensures !Less(a, b)
  {
    if Less(a, b) {
      LessTransitive(a, b, a);
      LessIrreflexive(a);
    }
  }

  // ---------- what the verdicts mean, independently of the loop ----------

  predicate SameNumber(x: string, y: string) {
    Atoi(x).Some? && Atoi(x) == Atoi(y)
  }

  /** All components before position n are numbers and agree. */
  predicate Agree(aa: seq<string>, da: seq<string>, n: nat) {
    n <= |aa| && n <= |da| && forall j :: 0 <= j < n ==> SameNumber(aa[j], da[j])
  }

  /** At position i the desired component is larger: as bytes in the last position, as numbers before it. */
  predicate LargerAt(aa: seq<string>, da: seq<string>, i: nat) {
    && i < |aa| && i < |da|
    && if i == |aa| - 1 then Less(aa[i], da[i])
       else Atoi(aa[i]).Some? && Atoi(da[i]).Some? && Atoi(aa[i]).value < Atoi(da[i]).value
  }

  predicate DecidedAt(aa: seq<string>, da: seq<string>, i: nat) {
    Agree(aa, da, i) && LargerAt(aa, da, i)
  }

  /** The desired version runs out of components while everything before agreed. */
  predicate RunsOut(aa: seq<string>, da: seq<string>) {
    && |da| < |aa|
    && Agree(aa, da, |da|)
    && (|da| == |aa| - 1 || Atoi(aa[|da|]).Some?)
  }

  /** Some position at or after i decides. */
  ghost predicate DecidedFrom(aa: seq<string>, da: seq<string>, i: nat) {
    exists k :: i <= k < |aa| && DecidedAt(aa, da, k)
  }

  lemma DecidedStep(aa: seq<string>, da: seq<string>, i: nat)
    requires i < |aa| && Agree(aa, da, i)
    ensures LargerAt(aa, da, i) ==> DecidedFrom(aa, da, i)
    ensures i < |da| && SameNumber(aa[i], da[i]) && i < |aa| - 1 ==>
      DecidedFrom(aa, da, i) == DecidedFrom(aa, da, i + 1)
    ensures !LargerAt(aa, da, i) && (i >= |da| || !SameNumber(aa[i], da[i]) || i == |aa| - 1) ==>
      !DecidedFrom(aa, da, i)
  {
    assert LargerAt(aa, da, i) ==> DecidedAt(aa, da, i);
    forall k | i < k < |aa| && DecidedAt(aa, da, k)
      ensures i < |da| && SameNumber(aa[i], da[i]) && i < |aa| - 1
    {
      assert Agree(aa, da, k);
    }
  }

  lemma {:induction false} CompareFromMeaning(aa: seq<string>, da: seq<string>, i: nat)
    requires i < |aa| && Agree(aa, da, i)
    ensures CompareFrom(aa, da, i).Newer? <==> DecidedFrom(aa, da, i)
    ensures CompareFrom(aa, da, i).Panicked? <==> RunsOut(aa, da)
    decreases |aa| - i
  {
    DecidedStep(aa, da, i);
    if i < |da| && i < |aa| - 1 && SameNumber(aa[i], da[i]) {
      CompareFromMeaning(aa, da, i + 1);
    }
  }

  /** Newer exactly when some position decides; a panic exactly when the desired version runs out. */
  lemma CompareMeaning(actual: string, desired: string)
    ensures Compare(actual, desired).Newer?
       <==> DecidedFrom(Components(actual), Components(desired), 0)
    ensures Compare(actual, desired).Panicked? <==> RunsOut(Components(actual), Components(desired))
  {
    CompareFromMeaning(Components(actual), Components(desired), 0);
  }

  lemma NewerWitness(actual: string, desired: string) returns (k: nat)
    requires Compare(actual, desired).Newer?
    ensures k < |Components(actual)| && DecidedAt(Components(actual), Components(desired), k)
  {
    CompareMeaning(actual, desired);
    k :| k < |Components(actual)| && DecidedAt(Components(actual), Components(desired), k);
  }

  // ---------- a strict order on versions of equal component count ----------

  predicate SameShape(a: string, b: string) {
    |Components(a)| == |Components(b)|
  }

  lemma NewerIrreflexive(a: string)
    ensures Compare(a, a) == NotNewer
  {
    CompareMeaning(a, a);
    if Compare(a, a).Newer? {
      var k := NewerWitness(a, a);
      LessIrreflexive(Components(a)[k]);
    }
  }

  lemma NewerTransitive(a: string, b: string, c: string)
    requires SameShape(a, b) && SameShape(b, c)
    requires Compare(a, b).Newer? && Compare(b, c).Newer?
    ensures Compare(a, c).Newer?
  {
    var aa, bb, cc := Components(a), Components(b), Components(c);
    var i := NewerWitness(a, b);
    var k := NewerWitness(b, c);
    var m := if i < k then i else k;
    if i == k == |aa| - 1 {
      LessTransitive(aa[i], bb[i], cc[i]);
    }
    assert forall j :: 0 <= j < m ==> SameNumber(aa[j], bb[j]) && SameNumber(bb[j], cc[j]);
    assert i < k ==> SameNumber(bb[i], cc[i]);
    assert k < i ==> SameNumber(aa[k], bb[k]);
    assert DecidedAt(aa, cc, m);
    CompareMeaning(a, c);
  }

  /** Versions of equal component count never make the comparison panic. */
  lemma SameShapeNeverPanics(a: string, b: string)
    requires |Components(a)| <= |Components(b)|
    ensures !Compare(a, b).Panicked?
  {
    CompareMeaning(a, b);
  }

  // ---------- and across component counts ----------

  /** Byte order and number order disagree: x comes first as bytes, y as a number. */
  predicate Opposed(x: string, y: string) {
    Less(x, y) && Atoi(x).Some? && Atoi(y).Some? && Atoi(y).value < Atoi(x).value
  }

  /** The shorter version ends where the two first differ, and there bytes and numbers disagree. */
  predicate OpposedVersions(shorter: string, longer: string) {
    var ss, ll := Components(shorter), Components(longer);
    |ss| < |ll| && Agree(ss, ll, |ss| - 1) && Opposed(ss[|ss| - 1], ll[|ss| - 1])
  }

  lemma OpposedAreNewer(shorter: string, longer: string)
    requires OpposedVersions(shorter, longer)
    ensures Compare(shorter, longer).Newer? && Compare(longer, shorter).Newer?
  {
    var ss, ll := Components(shorter), Components(longer);
    assert DecidedAt(ss, ll, |ss| - 1);
    assert DecidedAt(ll, ss, |ss| - 1);
    CompareMeaning(shorter, longer);
    CompareMeaning(longer, shorter);
  }

  /** Where two versions are both newer, one of them ends. */
  lemma DecidedTogether(aa: seq<string>, bb: seq<string>, i: nat, k: nat)
    requires DecidedAt(aa, bb, i) && DecidedAt(bb, aa, k)
    ensures i == k && |aa| != |bb|
    ensures i == |aa| - 1 ==> Opposed(aa[i], bb[i])
    ensures i == |bb| - 1 ==> Opposed(bb[i], aa[i])
    ensures i == |aa| - 1 || i == |bb| - 1
  {
    if i == k == |aa| - 1 == |bb| - 1 {
      LessTransitiveContra(aa[i], bb[i]);
      assert false;
    }
  }

  /**
   * Two versions are each newer than the other exactly when the shorter one ends where they first differ and the
   * byte order of the two components there is the opposite of their number order.
   */
  lemma MutuallyNewerIff(a: string, b: string)
    ensures Compare(a, b).Newer? && Compare(b, a).Newer? <==> OpposedVersions(a, b) || OpposedVersions(b, a)
  {
    if Compare(a, b).Newer? && Compare(b, a).Newer? {
      var i := NewerWitness(a, b);
      var k := NewerWitness(b, a);
      DecidedTogether(Components(a), Components(b), i, k);
    }
    if OpposedVersions(a, b) {
      OpposedAreNewer(a, b);
    }
    if OpposedVersions(b, a) {
      OpposedAreNewer(b, a);
    }
  }

  lemma SmallNumbers()
    ensures Atoi("1") == Some(1) && Atoi("2") == Some(2) && Atoi("10") == Some(10)
  {
    assert Itoa(1) == "1" && Itoa(2) == "2" && Itoa(10) == "10";
    ItoaAtoiRoundTrip(1);
    ItoaAtoiRoundTrip(2);
    ItoaAtoiRoundTrip(10);
  }

  lemma CyclicComponents()
    ensures Components("1.10") == ["1", "10"]
    ensures Components("1.2.0") == ["1", "2", "0"]
  {
    assert "1.10" == "1" + ['.'] + "10";
    SplitFirst("1", "10", '.');
    SplitOne("10", '.');
    assert "1.2.0" == "1" + ['.'] + "2.0" && "2.0" == "2" + ['.'] + "0";
    SplitFirst("1", "2.0", '.');
    SplitFirst("2", "0", '.');
    SplitOne("0", '.');
  }

  /** For instance "1.10" < "1.2.0" < "1.10". */
  lemma NewerCyclesAcrossShapes()
    ensures OpposedVersions("1.10", "1.2.0")
    ensures Compare("1.10", "1.2.0").Newer? && Compare("1.2.0", "1.10").Newer?
  {
    SmallNumbers();
    CyclicComponents();
    assert Less("10", "2");
    assert Agree(["1", "10"], ["1", "2", "0"], 1);
    assert OpposedVersions("1.10", "1.2.0");
    OpposedAreNewer("1.10", "1.2.0");
  }

  // ---------- print, split, parse and compare against the tuple order ----------

  lemma {:induction false} NumeralHasNoDot(n: int)
    ensures Free(Itoa(n), '.')
  {
    if n < 0 {
      assert AllDigits(Numeral(-n));
      assert forall i :: 0 < i < |Itoa(n)| ==> IsDigit(Itoa(n)[i]);
    } else {
      assert AllDigits(Numeral(n));
    }
  }

  lemma PrintedComponents(v: AgentVersion)
    requires v.Valid()
    ensures Components(Print(v)) == [Itoa(v.major), Itoa(v.minor), Itoa(v.revision), v.timestamp]
  {
    var c := Itoa(v.revision) + ['.'] + v.timestamp;
    var b := Itoa(v.minor) + ['.'] + c;
    NumeralHasNoDot(v.major);
    NumeralHasNoDot(v.minor);
    NumeralHasNoDot(v.revision);
    SplitOne(v.timestamp, '.');
    SplitFirst(Itoa(v.revision), v.timestamp, '.');
    SplitFirst(Itoa(v.minor), c, '.');
    SplitFirst(Itoa(v.major), b, '.');
    assert Print(v) == Itoa(v.major) + ['.'] + b;
  }

  lemma PrintedNumbers(v: AgentVersion)
    requires v.Valid()
    ensures Atoi(Itoa(v.major)) == Some(v.major)
    ensures Atoi(Itoa(v.minor)) == Some(v.minor)
    ensures Atoi(Itoa(v.revision)) == Some(v.revision)
  {
    ItoaAtoiRoundTrip(v.major);
    ItoaAtoiRoundTrip(v.minor);
    ItoaAtoiRoundTrip(v.revision);
  }

  /** Comparing two printed versions is comparing the versions. */
  lemma PrintedOrder(a: AgentVersion, d: AgentVersion)
    requires a.Valid() && d.Valid()
    ensures Compare(Print(a), Print(d)) == if a.Before(d) then Newer else NotNewer
  {
    PrintedComponents(a);
    PrintedComponents(d);
    PrintedNumbers(a);
    PrintedNumbers(d);
    var aa, da := Components(Print(a)), Components(Print(d));
    assert CompareFrom(aa, da, 3) == if Less(a.timestamp, d.timestamp) then Newer else NotNewer;
    assert CompareFrom(aa, da, 2) ==
           if a.revision < d.revision then Newer else if a.revision > d.revision then NotNewer
               else CompareFrom(aa, da, 3);
    assert CompareFrom(aa, da, 1) ==
           if a.minor < d.minor then Newer else if a.minor > d.minor then NotNewer else CompareFrom(aa, da, 2);
  }
}
