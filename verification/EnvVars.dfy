/** The environment variables and the labels of the OneAgent DaemonSet. */
module EnvVars {
  import opened Common

  datatype Source = FieldRef(path: string) | SecretKeyRef(name: string, key: string) | OtherSource(content: string)

  datatype EnvVar = EnvVar(name: string, value: string, valueFrom: Option<Source>)

  datatype Proxy = Proxy(value: string, valueFrom: string)

  /** The fields of the custom resource and of the cluster that the defaults depend on. */
  datatype Inputs = Inputs(
    name: string,
    customTokens: string,
    clusterID: string,
    apiURL: string,
    webhookInjection: bool,
    useImmutableImage: bool,
    skipCertCheck: bool,
    proxy: Option<Proxy>,
    env: seq<EnvVar>)

  function TokensName(i: Inputs): string {
    if i.customTokens != "" then i.customTokens else i.name
  }

  const INSTALLER_PATH :=
    "/v1/deployment/installer/agent/unix/default/latest" +
    "?Api-Token=$(ONEAGENT_INSTALLER_TOKEN)&arch=x86&flavor=default"

  function ProxyDefault(p: Proxy): EnvVar {
    if p.valueFrom != "" then EnvVar("https_proxy", "", Some(SecretKeyRef(p.valueFrom, "proxy")))
    else EnvVar("https_proxy", p.value, None)
  }

  predicate ProxySet(i: Inputs) {
    i.proxy.Some? && (i.proxy.value.value != "" || i.proxy.value.valueFrom != "")
  }

  /** The reserved variables in their fixed order, each with its default. */
  function Defaults(i: Inputs): (r: seq<EnvVar>)
    ensures Distinct(r)
  {
    [EnvVar("DT_K8S_NODE_NAME", "", Some(FieldRef("spec.nodeName"))),
     EnvVar("DT_K8S_CLUSTER_ID", i.clusterID, None)]
    + (if i.webhookInjection then [EnvVar("ONEAGENT_DISABLE_CONTAINER_INJECTION", "true", None)] else [])
    + (if i.useImmutableImage then [] else
       [EnvVar("ONEAGENT_INSTALLER_TOKEN", "", Some(SecretKeyRef(TokensName(i), "paasToken"))),
        EnvVar("ONEAGENT_INSTALLER_SCRIPT_URL", i.apiURL + INSTALLER_PATH, None),
        EnvVar("ONEAGENT_INSTALLER_SKIP_CERT_CHECK", if i.skipCertCheck then "true" else "false", None)])
    + (if ProxySet(i) then [ProxyDefault(i.proxy.value)] else [])
  }

  predicate Distinct(evs: seq<EnvVar>) {
    forall i, j :: 0 <= i < j < |evs| ==> evs[i].name != evs[j].name
  }

  predicate Names(evs: seq<EnvVar>, name: string) {
    exists i :: 0 <= i < |evs| && evs[i].name == name
  }

  // ---------- the specification ----------

  /** The last entry of that name, if any. */
  function LastOf(user: seq<EnvVar>, name: string): Option<EnvVar> {
    if user == [] then None
    else if user[|user| - 1].name == name then Some(user[|user| - 1])
    else LastOf(user[..|user| - 1], name)
  }

  function OrDefault(given: Option<EnvVar>, d: EnvVar): EnvVar {
    if given.Some? then given.value else d
  }

  /** Every reserved variable once, with the user's last value or else its default. */
  function Reserved(defaults: seq<EnvVar>, user: seq<EnvVar>): (r: seq<EnvVar>)
    ensures |r| == |defaults|
  {
    seq(|defaults|, i requires 0 <= i < |defaults| => OrDefault(LastOf(user, defaults[i].name), defaults[i]))
  }

  /** The user's entries that are not reserved, in their order. */
  function Remaining(defaults: seq<EnvVar>, user: seq<EnvVar>): seq<EnvVar>
    decreases |user|
  {
    if user == [] then []
    else
      var last := user[|user| - 1];
      Remaining(defaults, user[..|user| - 1]) + if Names(defaults, last.name) then [] else [last]
  }

  function Merge(defaults: seq<EnvVar>, user: seq<EnvVar>): seq<EnvVar> {
    Reserved(defaults, user) + Remaining(defaults, user)
  }

  // ---------- the code ----------

  /** A reserved variable and the user's entry for it, which is filled in while the entries are split. */
  class ReservedEnvVar {
    const default: EnvVar
    var value: Option<EnvVar>

    constructor (default: EnvVar)
      ensures this.default == default && value == None
    {
      this.default := default;
      value := None;
    }
  }

  /** One distinct record per default, and an index of them by name. */
  ghost predicate Indexed(reserved: seq<ReservedEnvVar>, names: map<string, ReservedEnvVar>, defaults: seq<EnvVar>) {
    && |reserved| == |defaults|
    && (forall i :: 0 <= i < |reserved| ==> reserved[i].default == defaults[i])
    && (forall i, j :: 0 <= i < j < |reserved| ==> reserved[i] != reserved[j])
    && (forall i :: 0 <= i < |reserved| ==> defaults[i].name in names && names[defaults[i].name] == reserved[i])
    && (forall name :: name in names ==> Names(defaults, name))
  }

  /** Every record holds the last of the given entries that has its name. */
  ghost predicate Filled(reserved: seq<ReservedEnvVar>, defaults: seq<EnvVar>, user: seq<EnvVar>)
    reads reserved
  {
    |reserved| == |defaults| && forall i :: 0 <= i < |reserved| ==> reserved[i].value == LastOf(user, defaults[i].name)
  }

  method ReservedEnvVars(
      defaults: seq<EnvVar>) returns (reserved: seq<ReservedEnvVar>, names: map<string, ReservedEnvVar>)
    requires Distinct(defaults)
    ensures fresh(reserved)
    ensures Indexed(reserved, names, defaults)
    ensures Filled(reserved, defaults, [])
  {
    reserved, names := [], map[];
    for i := 0 to |defaults|
      invariant fresh(reserved)
      invariant Indexed(reserved, names, defaults[..i])
      invariant forall j :: 0 <= j < |reserved| ==> reserved[j].value == None
    {
      var r := new ReservedEnvVar(defaults[i]);
      IndexedNext(reserved, names, defaults, i, r);
      reserved := reserved + [r];
      names := names[defaults[i].name := r];
    }
    assert defaults[..|defaults|] == defaults;
  }

  lemma IndexedNext(
      reserved: seq<ReservedEnvVar>, names: map<string, ReservedEnvVar>, defaults: seq<EnvVar>, i: nat,
      r: ReservedEnvVar)
    requires i < |defaults| && Distinct(defaults) && Indexed(reserved, names, defaults[..i])
    requires r.default == defaults[i] && r !in reserved
    ensures Indexed(reserved + [r], names[defaults[i].name := r], defaults[..i + 1])
  {
    var before, after := defaults[..i], defaults[..i + 1];
    assert after == before + [defaults[i]];
    forall name | name in names ensures Names(after, name) {
      var j :| 0 <= j < i && before[j].name == name;
      assert after[j].name == name;
    }
    assert after[i].name == defaults[i].name;
    assert forall j :: 0 <= j < i ==> before[j] == defaults[j];
  }

  /** Splits the user's variables between those reserved and the rest. */
  method SplitDefined(
    reserved: seq<ReservedEnvVar>, names: map<string, ReservedEnvVar>, ghost defaults: seq<EnvVar>, user: seq<EnvVar>)
    returns (remaining: seq<EnvVar>)
    requires Indexed(reserved, names, defaults)
    requires Filled(reserved, defaults, [])
    modifies reserved
    ensures Filled(reserved, defaults, user)
    ensures remaining == Remaining(defaults, user)
  {
    remaining := [];
    for n := 0 to |user|
      invariant Filled(reserved, defaults, user[..n])
      invariant remaining == Remaining(defaults, user[..n])
    {
      var ev := user[n];
      assert user[..n + 1][..n] == user[..n];
      if ev.name in names {
        ghost var at :| 0 <= at < |defaults| && defaults[at].name == ev.name;
        assert names[ev.name] == reserved[at];
        names[ev.name].value := Some(ev);
        continue;
      }
      assert !Names(defaults, ev.name);
      remaining := remaining + [ev];
    }
    assert user[..|user|] == user;
  }

  /** The reserved variables in order, with a default where none was given. */
  method Assemble(reserved: seq<ReservedEnvVar>, ghost defaults: seq<EnvVar>, ghost user: seq<EnvVar>)
    returns (env: seq<EnvVar>)
    requires Filled(reserved, defaults, user)
    requires forall i :: 0 <= i < |reserved| ==> reserved[i].default == defaults[i]
    ensures env == Reserved(defaults, user)
  {
    env := [];
    for i := 0 to |reserved|
      invariant env == Reserved(defaults, user)[..i]
    {
      var ev := reserved[i].value;
      if ev.None? {
        ev := Some(reserved[i].default);
      }
      env := env + [ev.value];
    }
  }

  class DaemonSetBuilder {
    const instance: Inputs

    constructor (instance: Inputs)
      ensures this.instance == instance
    {
      this.instance := instance;
    }

    method PrepareEnvVars() returns (env: seq<EnvVar>)
      ensures env == Merge(Defaults(instance), instance.env)
    {
      var reserved, names := ReservedEnvVars(Defaults(instance));
      var remaining := SplitDefined(reserved, names, Defaults(instance), instance.env);
      env := Assemble(reserved, Defaults(instance), instance.env);
      env := env + remaining;
    }
  }

  // ---------- what the merge promises ----------

  /** Entry i of the user's list is the last one with its name. */
  predicate IsLast(user: seq<EnvVar>, i: int) {
    0 <= i < |user| && forall j :: i < j < |user| ==> user[j].name != user[i].name
  }

  lemma {:induction false} LastOfMeaning(user: seq<EnvVar>, name: string) returns (i: nat)
    ensures LastOf(user, name).None? <==> !Names(user, name)
    ensures LastOf(user, name).Some? ==> IsLast(user, i) && user[i].name == name && LastOf(user, name) == Some(user[i])
    decreases |user|
  {
    i := 0;
    if user != [] {
      var n := |user| - 1;
      if user[n].name == name {
        i := n;
      } else {
        i := LastOfMeaning(user[..n], name);
        assert Names(user, name) <==> Names(user[..n], name) by {
          if k :| 0 <= k < |user| && user[k].name == name {
            assert user[..n][k].name == name;
          }
        }
      }
    }
  }

  predicate Kept(defaults: seq<EnvVar>, user: seq<EnvVar>, i: nat) {
    i < |user| && !Names(defaults, user[i].name)
  }

  /** The positions of the entries that are not reserved, in ascending order. */
  ghost predicate Picks(at: seq<nat>, defaults: seq<EnvVar>, user: seq<EnvVar>) {
    && (forall k :: 0 <= k < |at| ==> Kept(defaults, user, at[k]))
    && (forall j, k :: 0 <= j < k < |at| ==> at[j] < at[k])
    && (forall i: nat :: Kept(defaults, user, i) ==> i in at)
  }

  lemma PicksNext(at: seq<nat>, defaults: seq<EnvVar>, before: seq<EnvVar>, last: EnvVar)
    requires Picks(at, defaults, before)
    ensures Picks(if Names(defaults, last.name) then at else at + [|before|], defaults, before + [last])
  {
    var n, user := |before|, before + [last];
    var more := if Names(defaults, last.name) then at else at + [n];
    forall i: nat ensures Kept(defaults, user, i) <==>
      Kept(defaults, before, i) || (i == n && !Names(defaults, last.name)) {
      if i < n {
        assert user[i] == before[i];
      }
    }
    forall k | 0 <= k < |more| ensures Kept(defaults, user, more[k]) {
      assert k < |at| ==> Kept(defaults, before, at[k]);
    }
    forall i: nat | Kept(defaults, user, i) ensures i in more {
      if i == n {
        assert more[|at|] == n;
      } else {
        assert i in at;
      }
    }
    assert forall j, k :: 0 <= j < k < |at| ==> more[j] < more[k];
  }

  /** Reading the given positions of the user's list yields exactly these entries. */
  ghost predicate ReadsAt(at: seq<nat>, user: seq<EnvVar>, entries: seq<EnvVar>) {
    |at| == |entries| && forall k :: 0 <= k < |at| ==> at[k] < |user| && entries[k] == user[at[k]]
  }

  lemma ReadsAtNext(at: seq<nat>, before: seq<EnvVar>, entries: seq<EnvVar>, last: EnvVar)
    requires ReadsAt(at, before, entries)
    ensures ReadsAt(at, before + [last], entries)
    ensures ReadsAt(at + [|before|], before + [last], entries + [last])
  {
  }

  lemma RemainingNext(defaults: seq<EnvVar>, before: seq<EnvVar>, last: EnvVar)
    ensures Remaining(defaults, before + [last])
         == if Names(defaults, last.name) then Remaining(defaults, before) else Remaining(defaults, before) + [last]
  {
    assert (before + [last])[..|before|] == before;
  }

  /** Which of the user's entries remain, and in what order. */
  lemma {:induction false} RemainingPositions(defaults: seq<EnvVar>, user: seq<EnvVar>) returns (at: seq<nat>)
    ensures Picks(at, defaults, user)
    ensures ReadsAt(at, user, Remaining(defaults, user))
    decreases |user|, 1
  {
    if user == [] {
      at := [];
    } else {
      at := NextPositions(defaults, user[..|user| - 1], user[|user| - 1]);
      assert user[..|user| - 1] + [user[|user| - 1]] == user;
    }
  }

  lemma {:induction false} NextPositions(
      defaults: seq<EnvVar>, before: seq<EnvVar>, last: EnvVar) returns (at: seq<nat>)
    ensures Picks(at, defaults, before + [last])
    ensures ReadsAt(at, before + [last], Remaining(defaults, before + [last]))
    decreases |before| + 1, 0
  {
    at := RemainingPositions(defaults, before);
    PicksNext(at, defaults, before, last);
    ReadsAtNext(at, before, Remaining(defaults, before), last);
    RemainingNext(defaults, before, last);
    if !Names(defaults, last.name) {
      at := at + [|before|];
    }
  }

  /** No reserved name is left among the remaining entries, so each occurs once. */
  lemma ReservedOnce(defaults: seq<EnvVar>, user: seq<EnvVar>, i: nat, k: nat)
    requires Distinct(defaults) && i < |defaults| && k < |Merge(defaults, user)|
    ensures Merge(defaults, user)[k].name == defaults[i].name <==> k == i
  {
    if k < |defaults| {
      ReservedEntry(defaults, user, k);
    } else {
      var at := RemainingPositions(defaults, user);
      var r := k - |defaults|;
      assert Merge(defaults, user)[k] == Remaining(defaults, user)[r] == user[at[r]];
      assert Kept(defaults, user, at[r]);
      assert Names(defaults, defaults[i].name);
    }
  }

  /** A reserved variable has the user's last value for its name, or else its default. */
  lemma ReservedEntry(defaults: seq<EnvVar>, user: seq<EnvVar>, i: nat)
    requires i < |defaults|
    ensures Merge(defaults, user)[i].name == defaults[i].name
    ensures !Names(user, defaults[i].name) ==> Merge(defaults, user)[i] == defaults[i]
    ensures forall j :: IsLast(user, j) && user[j].name == defaults[i].name ==> Merge(defaults, user)[i] == user[j]
  {
    var _ := LastOfMeaning(user, defaults[i].name);
  }

  lemma {:induction false} LastOfAppend(a: seq<EnvVar>, b: seq<EnvVar>, name: string)
    ensures LastOf(a + b, name) == if LastOf(b, name).Some? then LastOf(b, name) else LastOf(a, name)
    decreases |b|
  {
    if b == [] {
      assert a + b == a;
    } else {
      var n := |b| - 1;
      assert (a + b)[..|a + b| - 1] == a + b[..n];
      assert (a + b)[|a + b| - 1] == b[n];
      LastOfAppend(a, b[..n], name);
    }
  }

  lemma {:induction false} LastOfRemaining(defaults: seq<EnvVar>, user: seq<EnvVar>, name: string)
    ensures LastOf(Remaining(defaults, user), name) == if Names(defaults, name) then None else LastOf(user, name)
    decreases |user|
  {
    if user != [] {
      var n := |user| - 1;
      LastOfRemaining(defaults, user[..n], name);
      var tail := if Names(defaults, user[n].name) then [] else [user[n]];
      LastOfAppend(Remaining(defaults, user[..n]), tail, name);
      if tail != [] {
        assert tail[..0] == [];
      }
    }
  }

  /**
   * What a container sees, where the last entry of a name wins: the user's value, and a default
   * only for a reserved name the user left out.
   */
  lemma MergeKeepsMeaning(defaults: seq<EnvVar>, user: seq<EnvVar>, name: string)
    requires Distinct(defaults)
    ensures Names(user, name) ==> LastOf(Merge(defaults, user), name) == LastOf(user, name)
    ensures !Names(user, name) ==> LastOf(Merge(defaults, user), name) == LastOf(defaults, name)
  {
    var reserved := Reserved(defaults, user);
    LastOfAppend(reserved, Remaining(defaults, user), name);
    LastOfRemaining(defaults, user, name);
    var u := LastOfMeaning(user, name);
    var d := LastOfMeaning(defaults, name);
    var r := LastOfMeaning(reserved, name);
    forall i | 0 <= i < |defaults| ensures reserved[i].name == defaults[i].name {
      ReservedEntry(defaults, user, i);
    }
    if Names(defaults, name) {
      assert reserved[d].name == name;
      assert Names(reserved, name);
      assert defaults[r].name == name;
      assert r == d;
    } else {
      assert !Names(reserved, name);
    }
  }

  lemma {:induction false} RemainingAppend(defaults: seq<EnvVar>, a: seq<EnvVar>, b: seq<EnvVar>)
    ensures Remaining(defaults, a + b) == Remaining(defaults, a) + Remaining(defaults, b)
    decreases |b|
  {
    if b == [] {
      assert a + b == a;
    } else {
      var n := |b| - 1;
      assert (a + b)[..|a + b| - 1] == a + b[..n];
      assert (a + b)[|a + b| - 1] == b[n];
      RemainingAppend(defaults, a, b[..n]);
    }
  }

  lemma {:induction false} AllReserved(defaults: seq<EnvVar>, some: seq<EnvVar>)
    requires forall i :: 0 <= i < |some| ==> Names(defaults, some[i].name)
    ensures Remaining(defaults, some) == []
    decreases |some|
  {
    if some != [] { AllReserved(defaults, some[..|some| - 1]); }
  }

  lemma {:induction false} NoneReserved(defaults: seq<EnvVar>, some: seq<EnvVar>)
    requires forall i :: 0 <= i < |some| ==> !Names(defaults, some[i].name)
    ensures Remaining(defaults, some) == some
    decreases |some|
  {
    if some != [] { NoneReserved(defaults, some[..|some| - 1]); }
  }

  lemma ReservedStable(defaults: seq<EnvVar>, user: seq<EnvVar>, i: nat)
    requires Distinct(defaults) && i < |defaults|
    ensures OrDefault(LastOf(Merge(defaults, user), defaults[i].name), defaults[i]) == Reserved(defaults, user)[i]
  {
    var name := defaults[i].name;
    MergeKeepsMeaning(defaults, user, name);
    var _ := LastOfMeaning(user, name);
    var d := LastOfMeaning(defaults, name);
    assert Names(defaults, name);
    assert d == i;
  }

  lemma RemainingStable(defaults: seq<EnvVar>, user: seq<EnvVar>)
    requires Distinct(defaults)
    ensures Remaining(defaults, Merge(defaults, user)) == Remaining(defaults, user)
  {
    var reserved, remaining := Reserved(defaults, user), Remaining(defaults, user);
    var at := RemainingPositions(defaults, user);
    forall k | 0 <= k < |remaining| ensures !Names(defaults, remaining[k].name) {
      assert remaining[k] == user[at[k]] && Kept(defaults, user, at[k]);
    }
    forall i | 0 <= i < |reserved| ensures Names(defaults, reserved[i].name) {
      ReservedEntry(defaults, user, i);
      assert defaults[i].name == reserved[i].name;
    }
    AllReserved(defaults, reserved);
    NoneReserved(defaults, remaining);
    RemainingAppend(defaults, reserved, remaining);
  }

  /** Merging the result again changes nothing, so an environment read back from a DaemonSet is stable. */
  lemma MergeIdempotent(defaults: seq<EnvVar>, user: seq<EnvVar>)
    requires Distinct(defaults)
    ensures Merge(defaults, Merge(defaults, user)) == Merge(defaults, user)
  {
    RemainingStable(defaults, user);
    var once := Merge(defaults, user);
    forall i | 0 <= i < |defaults| ensures Reserved(defaults, once)[i] == Reserved(defaults, user)[i] {
      ReservedStable(defaults, user, i);
    }
    assert Reserved(defaults, once) == Reserved(defaults, user);
  }

  // ---------- the defaults ----------

  /** The variable is set to the value, or refers to where it comes from. */
  function Plain(name: string, value: string): EnvVar {
    EnvVar(name, value, None)
  }

  function FromSecret(name: string, secret: string, key: string): EnvVar {
    EnvVar(name, "", Some(SecretKeyRef(secret, key)))
  }

  /** What the defaults tell the agent about its node, its cluster and injection. */
  lemma ClusterDefaults(i: Inputs)
    ensures EnvVar("DT_K8S_NODE_NAME", "", Some(FieldRef("spec.nodeName"))) in Defaults(i)
    ensures Plain("DT_K8S_CLUSTER_ID", i.clusterID) in Defaults(i)
    ensures Plain("ONEAGENT_DISABLE_CONTAINER_INJECTION", "true") in Defaults(i) <==> i.webhookInjection
    ensures Names(Defaults(i), "ONEAGENT_DISABLE_CONTAINER_INJECTION") <==> i.webhookInjection
  {
    assert Defaults(i)[0].name == "DT_K8S_NODE_NAME" && Defaults(i)[1].name == "DT_K8S_CLUSTER_ID";
    if i.webhookInjection {
      assert Defaults(i)[2] == Plain("ONEAGENT_DISABLE_CONTAINER_INJECTION", "true");
    }
    assert forall k :: 2 <= k < |Defaults(i)| && !i.webhookInjection ==> |Defaults(i)[k].name| != 36;
  }

  /** An installer image, unlike an immutable one, is told where to download the agent, with which token, and how. */
  lemma InstallerDefaults(i: Inputs)
    ensures !i.useImmutableImage ==>
      && FromSecret("ONEAGENT_INSTALLER_TOKEN", if i.customTokens != "" then i.customTokens else i.name, "paasToken")
         in Defaults(i)
      && Plain("ONEAGENT_INSTALLER_SCRIPT_URL", i.apiURL + INSTALLER_PATH) in Defaults(i)
      && Plain("ONEAGENT_INSTALLER_SKIP_CERT_CHECK", if i.skipCertCheck then "true" else "false") in Defaults(i)
    ensures i.useImmutableImage ==> !Names(Defaults(i), "ONEAGENT_INSTALLER_TOKEN")
  {
    if i.useImmutableImage {
      assert forall k :: 0 <= k < |Defaults(i)| ==> |Defaults(i)[k].name| != |"ONEAGENT_INSTALLER_TOKEN"|;
    }
  }

  /** A proxy is taken from its secret if one is named, else from its value, and left out if neither is set. */
  lemma ProxyDefaults(i: Inputs)
    ensures i.proxy.Some? && i.proxy.value.valueFrom != "" ==>
      FromSecret("https_proxy", i.proxy.value.valueFrom, "proxy") in Defaults(i)
    ensures i.proxy.Some? && i.proxy.value.valueFrom == "" && i.proxy.value.value != "" ==>
      Plain("https_proxy", i.proxy.value.value) in Defaults(i)
    ensures i.proxy.None? || (i.proxy.value.valueFrom == "" && i.proxy.value.value == "") ==>
      !Names(Defaults(i), "https_proxy")
  {
    if i.proxy.None? || (i.proxy.value.valueFrom == "" && i.proxy.value.value == "") {
      assert forall k :: 0 <= k < |Defaults(i)| ==> |Defaults(i)[k].name| != |"https_proxy"|;
    }
  }

  /** A default is what a container sees unless the user set the variable. */
  lemma DefaultSeen(i: Inputs, user: seq<EnvVar>, d: EnvVar)
    requires d in Defaults(i) && !Names(user, d.name)
    ensures LastOf(Merge(Defaults(i), user), d.name) == Some(d)
  {
    DistinctSeen(Defaults(i), user, d);
  }

  lemma DistinctSeen(defaults: seq<EnvVar>, user: seq<EnvVar>, d: EnvVar)
    requires Distinct(defaults) && d in defaults && !Names(user, d.name)
    ensures LastOf(Merge(defaults, user), d.name) == Some(d)
  {
    MergeKeepsMeaning(defaults, user, d.name);
    var k :| 0 <= k < |defaults| && defaults[k] == d;
    var at := LastOfMeaning(defaults, d.name);
    assert Names(defaults, d.name);
    assert at == k;
  }

  // ---------- labels ----------

  /** Later maps win. */
  function Overlay(labels: seq<map<string, string>>): map<string, string> {
    if labels == [] then map[] else Overlay(labels[..|labels| - 1]) + labels[|labels| - 1]
  }

  /** Ranges over each map in an arbitrary order. */
  method MergeLabels(labels: seq<map<string, string>>) returns (res: map<string, string>)
    ensures res == Overlay(labels)
  {
    res := map[];
    for i := 0 to |labels|
      invariant res == Overlay(labels[..i])
    {
      var m := labels[i];
      ghost var before := res;
      var left := m.Keys;
      while left != {}
        invariant left <= m.Keys
        invariant res == before + map k | k in m.Keys - left :: m[k]
        decreases left
      {
        var k :| k in left;
        res := res[k := m[k]];
        left := left - {k};
      }
      assert labels[..i + 1][..i] == labels[..i];
      assert (map k | k in m.Keys - left :: m[k]) == m;
    }
    assert labels[..|labels|] == labels;
  }

  /** Map i is the last one that defines the key. */
  predicate DefinedLast(labels: seq<map<string, string>>, key: string, i: nat) {
    i < |labels| && key in labels[i] && forall j :: i < j < |labels| ==> key !in labels[j]
  }

  lemma {:induction false} OverlayMeaning(labels: seq<map<string, string>>, key: string) returns (i: nat)
    ensures key in Overlay(labels) ==> DefinedLast(labels, key, i) && Overlay(labels)[key] == labels[i][key]
    ensures key !in Overlay(labels) ==> forall j :: 0 <= j < |labels| ==> key !in labels[j]
    decreases |labels|
  {
    i := 0;
    if labels != [] {
      var n := |labels| - 1;
      if key in labels[n] {
        i := n;
      } else {
        i := OverlayMeaning(labels[..n], key);
        assert forall j :: 0 <= j < n ==> labels[..n][j] == labels[j];
      }
    }
  }

  function BuildLabels(name: string): map<string, string> {
    map["dynatrace" := "oneagent", "oneagent" := name]
  }

  /**
   * Whatever labels the user sets, the DaemonSet of an instance selects the pods of its own template
   * and no template of an instance with another name.
   */
  lemma OwnPodsSelected(user: map<string, string>, name: string, other: string)
    ensures Selects(BuildLabels(other), Overlay([user, BuildLabels(name)])) <==> other == name
  {
    var labels := [user, BuildLabels(name)];
    assert labels[..1] == [user];
    assert [user][..0] == [];
    assert Overlay([user]) == map[] + user;
    var merged := Overlay(labels);
    assert merged == Overlay([user]) + BuildLabels(name);
    assert merged["oneagent"] == name && BuildLabels(other)["oneagent"] == other;
  }
}
