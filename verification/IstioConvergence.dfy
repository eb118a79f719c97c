/** Running the Istio reconciler again and again: what it reaches, how fast, and what it never touches. */
module IstioConvergence {
  import opened Common
  import opened IstioObjects
  import opened IstioController

  // ---------- one collection under one role, without failures ----------

  type Items<S> = map<string, Stored<S>>

  /** Everything wanted is there and nothing selected is unused. */
  predicate Settled<S>(items: Items<S>, wanted: set<string>, selector: Labels, seen: set<string>) {
    wanted <= items.Keys && Doomed(items, selector, seen) == {}
  }

  /** after is before plus the missing wanted names, created under the given labels. */
  predicate Extended<S(==)>(before: Items<S>, after: Items<S>, wanted: set<string>, labels: Labels) {
    && after.Keys == before.Keys + wanted
    && (forall n :: n in before ==> after[n] == before[n])
    && (forall n :: n in after && n !in before ==> after[n].labels == labels)
  }

  /** after is before with the missing wanted objects created and the doomed ones deleted. */
  predicate Configured<S(==)>(
      before: Items<S>, after: Items<S>, wanted: set<string>, labels: Labels, seen: set<string>)
  {
    && after.Keys == before.Keys + wanted - Doomed(before, labels, seen)
    && (forall n :: n in before && n in after ==> after[n] == before[n])
    && (forall n :: n in after && n !in before ==> after[n].labels == labels)
  }

  lemma SelectsSelf(labels: Labels)
    ensures Selects(labels, labels)
  {
  }

  /** No object is selected for two roles. */
  lemma RolesExclusive(env: Env, labels: Labels)
    ensures !(Selects(env.RoleLabels(API_ROLE), labels) && Selects(env.RoleLabels(ENDPOINT_ROLE), labels))
  {
    var a, e := env.RoleLabels(API_ROLE), env.RoleLabels(ENDPOINT_ROLE);
    var key := "dynatrace-istio-role";
    assert key in a && a[key] == API_ROLE && key in e && e[key] == ENDPOINT_ROLE;
    assert |API_ROLE| == 7 && |ENDPOINT_ROLE| == 22;
  }

  lemma ExtendThenSweep<S>(before: Items<S>, mid: Items<S>, wanted: set<string>, labels: Labels, seen: set<string>)
    requires wanted <= seen && Extended(before, mid, wanted, labels)
    ensures Configured(before, mid - Doomed(mid, labels, seen), wanted, labels, seen)
    ensures Doomed(mid, labels, seen) == Doomed(before, labels, seen)
  {
  }

  /** Configuring settles; a settled collection is left alone, and only a settled one is. */
  lemma ConfiguredSettles<S>(before: Items<S>, after: Items<S>, wanted: set<string>, labels: Labels, seen: set<string>)
    requires wanted <= seen && Configured(before, after, wanted, labels, seen)
    ensures Settled(after, wanted, labels, seen)
    ensures Settled(before, wanted, labels, seen) <==> after == before
  {
    forall n | n in wanted ensures n in after {
      assert n !in Doomed(before, labels, seen);
    }
    if Settled(before, wanted, labels, seen) {
      assert after.Keys == before.Keys;
    }
    if after == before {
      assert forall n :: n in Doomed(before, labels, seen) ==> n in before && n !in after;
    }
  }

  /** Configuring one role dooms nothing new for the other. */
  lemma ConfiguredKeepsOther<S>(
      before: Items<S>, after: Items<S>, wanted: set<string>, labels: Labels, seen: set<string>,
                                other: Labels, otherSeen: set<string>)
    requires Configured(before, after, wanted, labels, seen)
    requires !Selects(other, labels)
    ensures Doomed(after, other, otherSeen) <= Doomed(before, other, otherSeen)
  {
  }

  // ---------- both collections, without failures ----------

  ghost predicate Quiet(env: Env) {
    && (forall n: nat, s: string :: env.seOracle.faults(n, s) == NoFault)
    && (forall n: nat, s: string :: env.vsOracle.faults(n, s) == NoFault)
    && (forall n: nat, s: string :: !env.seOracle.deleteFails(n, s))
    && (forall n: nat, s: string :: !env.vsOracle.deleteFails(n, s))
  }

  lemma NamesStep(env: Env, hosts: seq<CommunicationHost>)
    requires hosts != []
    ensures Names(env, hosts) == {env.Name(hosts[0])} + Names(env, hosts[1..])
    ensures RoutedNames(env, hosts) ==
            (if env.isIP(hosts[0].host) then {} else {env.Name(hosts[0])}) + RoutedNames(env, hosts[1..])
  {
    assert forall h :: h in hosts <==> h == hosts[0] || h in hosts[1..];
  }

  lemma RoutedAreNames(env: Env, hosts: seq<CommunicationHost>)
    ensures RoutedNames(env, hosts) <= Names(env, hosts)
  {
  }

  lemma HandleQuiet<S>(o: Oracle, v: View<S>, name: string, built: Option<S>, labels: Labels)
    requires forall n: nat, s: string :: o.faults(n, s) == NoFault
    requires name != ""
    ensures var (v', created) := HandleObject(o, v, name, built, labels);
            && Extended(v.items, v'.items, if built.Some? then {name} else {}, labels)
            && created == Some(built.Some? && name !in v.items)
  {
  }

  lemma ExtendedTwice<S>(a: Items<S>, b: Items<S>, c: Items<S>, first: set<string>, second: set<string>, labels: Labels)
    requires Extended(a, b, first, labels) && Extended(b, c, second, labels)
    ensures Extended(a, c, first + second, labels)
  {
  }

  /** The hash never yields the empty string. */
  ghost predicate Hashes(env: Env) {
    forall s :: env.hash(s) != ""
  }

  lemma {:induction false} CreateHostsQuiet(env: Env, w: World, hosts: seq<CommunicationHost>, role: string)
    requires Quiet(env) && Hashes(env)
    ensures var o := CreateHosts(env, w, hosts, role);
            && Extended(w.ses.items, o.world.ses.items, Names(env, hosts), env.RoleLabels(role))
            && Extended(w.vss.items, o.world.vss.items, RoutedNames(env, hosts), env.RoleLabels(role))
            && o.result == Some(!(Names(env, hosts) <= w.ses.items.Keys && RoutedNames(env, hosts) <= w.vss.items.Keys))
    decreases |hosts|
  {
    if hosts != [] {
      var h := hosts[0];
      var labels := env.RoleLabels(role);
      var service := BuildVirtualService(h, env.isIP);
      HandleQuiet(env.seOracle, w.ses, env.Name(h), Some(BuildServiceEntry(h, env.isIP)), labels);
      HandleQuiet(env.vsOracle, w.vss, env.Name(h), service, labels);
      var ses := HandleObject(env.seOracle, w.ses, env.Name(h), Some(BuildServiceEntry(h, env.isIP)), labels).0;
      var vss := HandleObject(env.vsOracle, w.vss, env.Name(h), service, labels).0;
      CreateHostsQuiet(env, World(ses, vss), hosts[1..], role);
      var end := CreateHosts(env, World(ses, vss), hosts[1..], role).world;
      NamesStep(env, hosts);
      ExtendedTwice(w.ses.items, ses.items, end.ses.items, {env.Name(h)}, Names(env, hosts[1..]), labels);
      ExtendedTwice(w.vss.items, vss.items, end.vss.items, if service.Some? then {env.Name(h)} else {},
                    RoutedNames(env, hosts[1..]), labels);
    }
  }

  /** A role is settled when both kinds of objects are. */
  predicate RoleSettled(env: Env, w: World, hosts: seq<CommunicationHost>, role: string) {
    && Settled(w.ses.items, Names(env, hosts), env.RoleLabels(role), Names(env, hosts))
    && Settled(w.vss.items, RoutedNames(env, hosts), env.RoleLabels(role), Names(env, hosts))
  }

  predicate SameObjects(w: World, w': World) {
    w.ses.items == w'.ses.items && w.vss.items == w'.vss.items
  }

  lemma ConfigureRoleQuiet(env: Env, w: World, hosts: seq<CommunicationHost>, role: string)
    requires Quiet(env) && Hashes(env)
    ensures var o := ConfigureRole(env, w, hosts, role);
            && Configured(w.ses.items, o.world.ses.items, Names(env, hosts), env.RoleLabels(role), Names(env, hosts))
            && Configured(w.vss.items, o.world.vss.items, RoutedNames(env, hosts), env.RoleLabels(role),
                Names(env, hosts))
            && o.result == Some(!RoleSettled(env, w, hosts, role))
  {
    var labels, seen := env.RoleLabels(role), Names(env, hosts);
    var w2 := World(w.ses.Called(), w.vss.Called());
    var add := CreateHosts(env, w2, hosts, role);
    CreateHostsQuiet(env, w2, hosts, role);
    RoutedAreNames(env, hosts);
    ExtendThenSweep(w.ses.items, add.world.ses.items, Names(env, hosts), labels, seen);
    ExtendThenSweep(w.vss.items, add.world.vss.items, RoutedNames(env, hosts), labels, seen);
    SweepQuiet(env.seOracle, add.world.ses, labels, seen);
    SweepQuiet(env.vsOracle, add.world.vss, labels, seen);
  }

  lemma SweepQuiet<S>(o: Oracle, v: View<S>, selector: Labels, seen: set<string>)
    requires forall n: nat, s: string :: o.faults(n, s) == NoFault
    requires forall n: nat, s: string :: !o.deleteFails(n, s)
    ensures Sweep(o, v, selector, seen)
         == (View(v.items - Doomed(v.items, selector, seen), v.calls + 1), Some(Doomed(v.items, selector, seen) != {}))
  {
    var d := Doomed(v.items, selector, seen);
    assert d == set n | n in d && !o.deleteFails(v.calls + 1, n);
  }

  // ---------- convergence ----------

  /** A pass with Istio present and all answers available. */
  predicate Answered(inputs: Inputs) {
    inputs.enabled == Some(true) && inputs.apiHost.Some? && inputs.endpoints.Some?
  }

  predicate ApiSettled(env: Env, w: World, inputs: Inputs)
    requires Answered(inputs)
  {
    RoleSettled(env, w, [inputs.apiHost.value], API_ROLE)
  }

  predicate EndpointsSettled(env: Env, w: World, inputs: Inputs)
    requires Answered(inputs)
  {
    RoleSettled(env, w, inputs.endpoints.value, ENDPOINT_ROLE)
  }

  /** No object labelled for the API role is unused. */
  predicate ApiClean(env: Env, w: World, inputs: Inputs)
    requires Answered(inputs)
  {
    var labels, seen := env.RoleLabels(API_ROLE), Names(env, [inputs.apiHost.value]);
    Doomed(w.ses.items, labels, seen) == {} && Doomed(w.vss.items, labels, seen) == {}
  }

  /** How far a store is from the fixpoint: an upper bound on the passes that still report a change. */
  function Distance(env: Env, w: World, inputs: Inputs): nat
    requires Answered(inputs)
  {
    if ApiSettled(env, w, inputs) && EndpointsSettled(env, w, inputs) then 0
    else if ApiClean(env, w, inputs) && EndpointsSettled(env, w, inputs) then 1
    else if ApiSettled(env, w, inputs) then 2
    else 3
  }

  /** Configuring the API role from any store settles it, and keeps settled endpoints if nothing of it is doomed. */
  lemma ConfigureApi(env: Env, w: World, inputs: Inputs)
    requires Quiet(env) && Hashes(env) && Answered(inputs)
    ensures var w' := ConfigureRole(env, w, [inputs.apiHost.value], API_ROLE).world;
            && ApiSettled(env, w', inputs)
            && (ApiSettled(env, w, inputs) ==> SameObjects(w, w'))
            && (ApiClean(env, w, inputs) && EndpointsSettled(env, w, inputs) ==> EndpointsSettled(env, w', inputs))
  {
    var hosts := [inputs.apiHost.value];
    var labels, seen := env.RoleLabels(API_ROLE), Names(env, hosts);
    var w' := ConfigureRole(env, w, hosts, API_ROLE).world;
    ConfigureRoleQuiet(env, w, hosts, API_ROLE);
    RoutedAreNames(env, hosts);
    ConfiguredSettles(w.ses.items, w'.ses.items, Names(env, hosts), labels, seen);
    ConfiguredSettles(w.vss.items, w'.vss.items, RoutedNames(env, hosts), labels, seen);
    SelectsSelf(labels);
    RolesExclusive(env, labels);
    var other, otherSeen := env.RoleLabels(ENDPOINT_ROLE), Names(env, inputs.endpoints.value);
    ConfiguredKeepsOther(w.ses.items, w'.ses.items, Names(env, hosts), labels, seen, other, otherSeen);
    ConfiguredKeepsOther(w.vss.items, w'.vss.items, RoutedNames(env, hosts), labels, seen, other, otherSeen);
  }

  /** Configuring the endpoints from a store without doomed API objects settles them and dooms none. */
  lemma ConfigureEndpoints(env: Env, w: World, inputs: Inputs)
    requires Quiet(env) && Hashes(env) && Answered(inputs)
    ensures var w' := ConfigureRole(env, w, inputs.endpoints.value, ENDPOINT_ROLE).world;
            && EndpointsSettled(env, w', inputs)
            && (EndpointsSettled(env, w, inputs) <==> SameObjects(w, w'))
            && (ApiClean(env, w, inputs) ==> ApiClean(env, w', inputs))
  {
    var hosts := inputs.endpoints.value;
    var labels, seen := env.RoleLabels(ENDPOINT_ROLE), Names(env, hosts);
    var w' := ConfigureRole(env, w, hosts, ENDPOINT_ROLE).world;
    ConfigureRoleQuiet(env, w, hosts, ENDPOINT_ROLE);
    RoutedAreNames(env, hosts);
    ConfiguredSettles(w.ses.items, w'.ses.items, Names(env, hosts), labels, seen);
    ConfiguredSettles(w.vss.items, w'.vss.items, RoutedNames(env, hosts), labels, seen);
    SelectsSelf(labels);
    RolesExclusive(env, labels);
    var other, otherSeen := env.RoleLabels(API_ROLE), Names(env, [inputs.apiHost.value]);
    ConfiguredKeepsOther(w.ses.items, w'.ses.items, Names(env, hosts), labels, seen, other, otherSeen);
    ConfiguredKeepsOther(w.vss.items, w'.vss.items, RoutedNames(env, hosts), labels, seen, other, otherSeen);
  }

  /** A pass reports no change exactly at the fixpoint, which it leaves alone; every other pass comes closer. */
  lemma PassProgress(env: Env, w: World, inputs: Inputs)
    requires Quiet(env) && Hashes(env) && Answered(inputs)
    ensures var o := Pass(env, w, inputs);
            && o.result == Some(Distance(env, w, inputs) != 0)
            && (Distance(env, w, inputs) == 0 ==> SameObjects(w, o.world) && Distance(env, o.world, inputs) == 0)
            && (Distance(env, w, inputs) != 0 ==> Distance(env, o.world, inputs) < Distance(env, w, inputs))
  {
    var api := ConfigureRole(env, w, [inputs.apiHost.value], API_ROLE);
    ConfigureApi(env, w, inputs);
    ConfigureRoleQuiet(env, w, [inputs.apiHost.value], API_ROLE);
    if ApiSettled(env, w, inputs) {
      assert ApiClean(env, api.world, inputs);
      ConfigureEndpoints(env, api.world, inputs);
      ConfigureRoleQuiet(env, api.world, inputs.endpoints.value, ENDPOINT_ROLE);
    }
  }

  function Iterate<W>(step: W -> W, w: W, n: nat): W {
    if n == 0 then w else Iterate(step, step(w), n - 1)
  }

  lemma {:induction false} RankReachesZero<W(!new)>(step: W -> W, rank: W -> nat, w: W, n: nat, d: nat)
    requires forall x :: if rank(x) == 0 then rank(step(x)) == 0 else rank(step(x)) < rank(x)
    requires rank(w) <= d <= n
    ensures rank(Iterate(step, w, n)) == 0
    decreases n
  {
    if n > 0 {
      RankReachesZero(step, rank, step(w), n - 1, if d == 0 then 0 else d - 1);
    }
  }

  function PassStep(env: Env, inputs: Inputs): World -> World {
    w => Pass(env, w, inputs).world
  }

  /** The store after n passes. */
  function Passes(env: Env, w: World, inputs: Inputs, n: nat): World {
    Iterate(PassStep(env, inputs), w, n)
  }

  function DistanceRank(env: Env, inputs: Inputs): World -> nat
    requires Answered(inputs)
  {
    w => Distance(env, w, inputs)
  }

  /** One pass takes the distance down by at least one, until it is zero. */
  lemma PassApproaches(env: Env, w: World, inputs: Inputs)
    requires Quiet(env) && Hashes(env) && Answered(inputs)
    ensures var step, rank := PassStep(env, inputs), DistanceRank(env, inputs);
            if rank(w) == 0 then rank(step(w)) == 0 else rank(step(w)) < rank(w)
  {
    var step, rank := PassStep(env, inputs), DistanceRank(env, inputs);
    var d, d' := Distance(env, w, inputs), Distance(env, Pass(env, w, inputs).world, inputs);
    assert Lower(d, d') by {
      PassProgress(env, w, inputs);
    }
    assert rank(w) == d && rank(step(w)) == d';
  }

  predicate Lower(d: nat, d': nat) {
    if d == 0 then d' == 0 else d' < d
  }

  lemma EveryPassApproaches(env: Env, inputs: Inputs)
    requires Quiet(env) && Hashes(env) && Answered(inputs)
    ensures var step, rank := PassStep(env, inputs), DistanceRank(env, inputs);
            forall w :: if rank(w) == 0 then rank(step(w)) == 0 else rank(step(w)) < rank(w)
  {
    forall w {
      PassApproaches(env, w, inputs);
    }
  }

  lemma DistanceReachesZero(env: Env, w: World, inputs: Inputs, n: nat)
    requires Quiet(env) && Hashes(env) && Answered(inputs) && n >= 3
    ensures DistanceRank(env, inputs)(Passes(env, w, inputs, n)) == 0
  {
    EveryPassApproaches(env, inputs);
    AtMostThree(env, w, inputs);
    RankReachesZero(PassStep(env, inputs), DistanceRank(env, inputs), w, n, 3);
  }

  lemma AtMostThree(env: Env, w: World, inputs: Inputs)
    requires Answered(inputs)
    ensures DistanceRank(env, inputs)(w) <= 3
  {
  }

  /**
   * From any store, at most three passes report a change. Every later pass reports none and changes nothing, every
   * desired endpoint has its ServiceEntry, and its VirtualService unless it is an IP address, and nothing labelled
   * with a role is unused by that role.
   */
  lemma ConvergesInThreePasses(env: Env, w: World, inputs: Inputs, n: nat)
    requires Quiet(env) && Hashes(env) && Answered(inputs) && n >= 3
    ensures var w' := Passes(env, w, inputs, n);
            && Pass(env, w', inputs).result == Some(false)
            && SameObjects(w', Pass(env, w', inputs).world)
            && ApiSettled(env, w', inputs) && EndpointsSettled(env, w', inputs)
  {
    DistanceReachesZero(env, w, inputs, n);
    PassProgress(env, Passes(env, w, inputs, n), inputs);
  }
}
