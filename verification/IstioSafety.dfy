/** What Istio passes never do, whichever of their calls fail, and what their objects contain. */
module IstioSafety {
  import opened Common
  import opened Text
  import opened IstioObjects
  import opened IstioController
  import opened IstioConvergence

  // ---------- frame of one collection ----------

  /**
   * after differs from before only by objects created under the given names and labels, and by deleted objects that
   * were selected by the labels and not in use.
   */
  predicate Framed<S(==)>(before: Items<S>, after: Items<S>, labels: Labels, seen: set<string>) {
    && (forall n :: n in before && n !in after ==> n in Doomed(before, labels, seen))
    && (forall n :: n in before && n in after ==> after[n] == before[n])
    && (forall n :: n in after && n !in before ==> n in seen && after[n].labels == labels)
  }

  lemma FramedTwice<S>(a: Items<S>, b: Items<S>, c: Items<S>, labels: Labels, seen: set<string>)
    requires Framed(a, b, labels, seen) && Framed(b, c, labels, seen)
    ensures Framed(a, c, labels, seen)
  {
    assert forall n :: n in a && n in c ==> n in b;
  }

  lemma HandleFrame<S>(o: Oracle, v: View<S>, name: string, built: Option<S>, labels: Labels, seen: set<string>)
    requires name in seen
    ensures Framed(v.items, HandleObject(o, v, name, built, labels).0.items, labels, seen)
  {
  }

  /** Even with failing calls, a sweep deletes only objects that carry the role's labels and are not in use. */
  lemma SweepFrame<S>(o: Oracle, v: View<S>, selector: Labels, seen: set<string>)
    ensures var (v', deleted) := Sweep(o, v, selector, seen);
            && v'.items.Keys <= v.items.Keys
            && v.items.Keys - v'.items.Keys <= Doomed(v.items, selector, seen)
            && Framed(v.items, v'.items, selector, seen)
            && (deleted.Some? ==> (deleted.value <==> v'.items != v.items))
  {
    if o.faults(v.calls, "").NoFault? {
      var d := set n | n in Doomed(v.items, selector, seen) && !o.deleteFails(v.calls + 1, n);
      if n :| n in d {
        assert n in v.items && n !in v.items - d;
      }
    }
  }

  predicate WorldFramed(env: Env, w: World, w': World, hosts: seq<CommunicationHost>, role: string) {
    && Framed(w.ses.items, w'.ses.items, env.RoleLabels(role), Names(env, hosts))
    && Framed(w.vss.items, w'.vss.items, env.RoleLabels(role), Names(env, hosts))
  }

  lemma WorldFramedTwice(env: Env, a: World, b: World, c: World, hosts: seq<CommunicationHost>, role: string)
    requires WorldFramed(env, a, b, hosts, role) && WorldFramed(env, b, c, hosts, role)
    ensures WorldFramed(env, a, c, hosts, role)
  {
    FramedTwice(a.ses.items, b.ses.items, c.ses.items, env.RoleLabels(role), Names(env, hosts));
    FramedTwice(a.vss.items, b.vss.items, c.vss.items, env.RoleLabels(role), Names(env, hosts));
  }

  /** What creating the objects of one host leaves, whether or not its calls fail. */
  lemma HostFrame(env: Env, w: World, h: CommunicationHost, role: string, all: seq<CommunicationHost>)
    requires h in all
    ensures var name, labels := env.Name(h), env.RoleLabels(role);
            var ses := HandleObject(env.seOracle, w.ses, name, Some(BuildServiceEntry(h, env.isIP)), labels).0;
            var vss := HandleObject(env.vsOracle, w.vss, name, BuildVirtualService(h, env.isIP), labels).0;
            WorldFramed(env, w, World(ses, vss), all, role) && WorldFramed(env, w, World(ses, w.vss), all, role)
  {
    var labels, seen := env.RoleLabels(role), Names(env, all);
    assert env.Name(h) in seen;
    HandleFrame(env.seOracle, w.ses, env.Name(h), Some(BuildServiceEntry(h, env.isIP)), labels, seen);
    HandleFrame(env.vsOracle, w.vss, env.Name(h), BuildVirtualService(h, env.isIP), labels, seen);
  }

  lemma {:induction false} CreateHostsFrame(
      env: Env, w: World, hosts: seq<CommunicationHost>, role: string, all: seq<CommunicationHost>)
    requires forall h :: h in hosts ==> h in all
    ensures WorldFramed(env, w, CreateHosts(env, w, hosts, role).world, all, role)
    decreases |hosts|
  {
    if hosts != [] {
      var h, labels := hosts[0], env.RoleLabels(role);
      var (ses, entry) := HandleObject(env.seOracle, w.ses, env.Name(h), Some(BuildServiceEntry(h, env.isIP)), labels);
      var (vss, service) := HandleObject(env.vsOracle, w.vss, env.Name(h), BuildVirtualService(h, env.isIP), labels);
      HostFrame(env, w, h, role, all);
      if entry.Some? && service.Some? {
        CreateHostsFrame(env, World(ses, vss), hosts[1..], role, all);
        var end := CreateHosts(env, World(ses, vss), hosts[1..], role).world;
        WorldFramedTwice(env, w, World(ses, vss), end, all, role);
      }
    }
  }

  lemma CreateRoleFrame(env: Env, w: World, hosts: seq<CommunicationHost>, role: string)
    ensures WorldFramed(env, w, CreateRole(env, w, hosts, role).world, hosts, role)
  {
    CreateHostsFrame(env, World(w.ses.Called(), w.vss.Called()), hosts, role, hosts);
  }

  lemma RemoveRoleFrame(env: Env, w: World, hosts: seq<CommunicationHost>, role: string)
    ensures WorldFramed(env, w, RemoveRole(env, w, hosts, role).world, hosts, role)
  {
    SweepFrame(env.vsOracle, w.vss, env.RoleLabels(role), Names(env, hosts));
    SweepFrame(env.seOracle, w.ses, env.RoleLabels(role), Names(env, hosts));
  }

  lemma ConfigureRoleFrame(env: Env, w: World, hosts: seq<CommunicationHost>, role: string)
    ensures WorldFramed(env, w, ConfigureRole(env, w, hosts, role).world, hosts, role)
  {
    var add := CreateRole(env, w, hosts, role).world;
    CreateRoleFrame(env, w, hosts, role);
    RemoveRoleFrame(env, add, hosts, role);
    WorldFramedTwice(env, w, add, RemoveRole(env, add, hosts, role).world, hosts, role);
  }

  // ---------- objects of others, over whole runs ----------

  /** Labels that neither role of the instance selects. */
  predicate Foreign(instance: string, labels: Labels) {
    !Selects(IstioLabels(instance, API_ROLE), labels) && !Selects(IstioLabels(instance, ENDPOINT_ROLE), labels)
  }

  predicate ForeignKept<S(==)>(instance: string, before: Items<S>, after: Items<S>) {
    forall n :: n in before && Foreign(instance, before[n].labels) ==> n in after && after[n] == before[n]
  }

  predicate WorldForeignKept(instance: string, w: World, w': World) {
    ForeignKept(instance, w.ses.items, w'.ses.items) && ForeignKept(instance, w.vss.items, w'.vss.items)
  }

  lemma PassKeepsForeign(env: Env, w: World, inputs: Inputs)
    ensures WorldForeignKept(env.instance, w, Pass(env, w, inputs).world)
  {
    if inputs.enabled == Some(true) && inputs.apiHost.Some? {
      var api := ConfigureRole(env, w, [inputs.apiHost.value], API_ROLE);
      ConfigureRoleFrame(env, w, [inputs.apiHost.value], API_ROLE);
      assert WorldForeignKept(env.instance, w, api.world);
      if api.result == Some(false) && inputs.endpoints.Some? {
        ConfigureRoleFrame(env, api.world, inputs.endpoints.value, ENDPOINT_ROLE);
      }
    }
  }

  /** The store after a run of passes with their own failures and answers. */
  function Run(w: World, passes: seq<(Env, Inputs)>): World
    decreases |passes|
  {
    if passes == [] then w else Run(Pass(passes[0].0, w, passes[0].1).world, passes[1..])
  }

  /** Over any run of an instance's passes, objects without its labels are neither deleted nor changed. */
  lemma {:induction false} RunKeepsForeign(instance: string, w: World, passes: seq<(Env, Inputs)>)
    requires forall i :: 0 <= i < |passes| ==> passes[i].0.instance == instance
    ensures WorldForeignKept(instance, w, Run(w, passes))
    decreases |passes|
  {
    if passes != [] {
      var next := Pass(passes[0].0, w, passes[0].1).world;
      PassKeepsForeign(passes[0].0, w, passes[0].1);
      assert forall i :: 0 <= i < |passes[1..]| ==> passes[1..][i] == passes[i + 1];
      RunKeepsForeign(instance, next, passes[1..]);
    }
  }

  // ---------- contents ----------

  ghost predicate EntryFor(env: Env, n: string, spec: ServiceEntry, h: CommunicationHost) {
    h.Parsed() && env.Name(h) == n && spec == BuildServiceEntry(h, env.isIP)
  }

  ghost predicate ServiceFor(env: Env, n: string, spec: VirtualService, h: CommunicationHost) {
    h.Parsed() && env.Name(h) == n && BuildVirtualService(h, env.isIP) == Some(spec)
  }

  ghost predicate GenuineEntries(env: Env, items: Items<ServiceEntry>) {
    forall n :: n in items && !Foreign(env.instance, items[n].labels) ==> exists h :: EntryFor(env, n, items[n].spec, h)
  }

  ghost predicate GenuineServices(env: Env, items: Items<VirtualService>) {
    forall n :: n in items && !Foreign(env.instance, items[n].labels) ==>
      exists h :: ServiceFor(env, n, items[n].spec, h)
  }

  /** Every object under the instance's labels was built for an endpoint that hashes to its name. */
  ghost predicate Genuine(env: Env, w: World) {
    GenuineEntries(env, w.ses.items) && GenuineServices(env, w.vss.items)
  }

  lemma HandleEntryGenuine(env: Env, v: View<ServiceEntry>, h: CommunicationHost, labels: Labels)
    requires GenuineEntries(env, v.items) && h.Parsed()
    ensures GenuineEntries(env,
      HandleObject(env.seOracle, v, env.Name(h), Some(BuildServiceEntry(h, env.isIP)), labels).0.items)
  {
    assert EntryFor(env, env.Name(h), BuildServiceEntry(h, env.isIP), h);
  }

  lemma HandleServiceGenuine(env: Env, v: View<VirtualService>, h: CommunicationHost, labels: Labels)
    requires GenuineServices(env, v.items) && h.Parsed()
    ensures GenuineServices(env,
      HandleObject(env.vsOracle, v, env.Name(h), BuildVirtualService(h, env.isIP), labels).0.items)
  {
    var service := BuildVirtualService(h, env.isIP);
    assert service.Some? ==> ServiceFor(env, env.Name(h), service.value, h);
  }

  predicate AllParsed(hosts: seq<CommunicationHost>) {
    forall h :: h in hosts ==> h.Parsed()
  }

  lemma {:induction false} CreateHostsGenuine(env: Env, w: World, hosts: seq<CommunicationHost>, role: string)
    requires Genuine(env, w) && AllParsed(hosts)
    ensures Genuine(env, CreateHosts(env, w, hosts, role).world)
    decreases |hosts|
  {
    if hosts != [] {
      var h := hosts[0];
      var labels := env.RoleLabels(role);
      HandleEntryGenuine(env, w.ses, h, labels);
      HandleServiceGenuine(env, w.vss, h, labels);
      var ses := HandleObject(env.seOracle, w.ses, env.Name(h), Some(BuildServiceEntry(h, env.isIP)), labels).0;
      var vss := HandleObject(env.vsOracle, w.vss, env.Name(h), BuildVirtualService(h, env.isIP), labels).0;
      CreateHostsGenuine(env, World(ses, vss), hosts[1..], role);
    }
  }

  lemma ConfigureRoleGenuine(env: Env, w: World, hosts: seq<CommunicationHost>, role: string)
    requires Genuine(env, w) && AllParsed(hosts)
    ensures Genuine(env, ConfigureRole(env, w, hosts, role).world)
  {
    CreateHostsGenuine(env, World(w.ses.Called(), w.vss.Called()), hosts, role);
    var add := CreateRole(env, w, hosts, role).world;
    assert Genuine(env, add);
    SweepFrame(env.vsOracle, add.vss, env.RoleLabels(role), Names(env, hosts));
    SweepFrame(env.seOracle, add.ses, env.RoleLabels(role), Names(env, hosts));
  }

  predicate InputsParsed(inputs: Inputs) {
    && (inputs.apiHost.Some? ==> inputs.apiHost.value.Parsed())
    && (inputs.endpoints.Some? ==> AllParsed(inputs.endpoints.value))
  }

  lemma PassGenuine(env: Env, w: World, inputs: Inputs)
    requires Genuine(env, w) && InputsParsed(inputs)
    ensures Genuine(env, Pass(env, w, inputs).world)
  {
    if inputs.enabled == Some(true) && inputs.apiHost.Some? {
      ConfigureRoleGenuine(env, w, [inputs.apiHost.value], API_ROLE);
      var api := ConfigureRole(env, w, [inputs.apiHost.value], API_ROLE).world;
      if inputs.endpoints.Some? {
        ConfigureRoleGenuine(env, api, inputs.endpoints.value, ENDPOINT_ROLE);
      }
    }
  }

  lemma {:induction false} PassesGenuine(env: Env, w: World, inputs: Inputs, n: nat)
    requires Genuine(env, w) && InputsParsed(inputs)
    ensures Genuine(env, Passes(env, w, inputs, n))
    decreases n
  {
    if n > 0 {
      PassGenuine(env, w, inputs);
      PassesGenuine(env, Pass(env, w, inputs).world, inputs, n - 1);
    }
  }

  ghost predicate CollisionFree(hash: string -> string) {
    forall s, t :: hash(s) == hash(t) ==> s == t
  }

  /** With a collision-free hash, an endpoint's ServiceEntry under the instance's labels was built for that endpoint. */
  lemma GenuineMatches(env: Env, w: World, h: CommunicationHost)
    requires Genuine(env, w) && CollisionFree(env.hash) && h.Parsed()
    ensures var n := env.Name(h);
            && (n in w.ses.items && !Foreign(env.instance, w.ses.items[n].labels) ==>
                  w.ses.items[n].spec == BuildServiceEntry(h, env.isIP))
            && (n in w.vss.items && !Foreign(env.instance, w.vss.items[n].labels) ==>
                  BuildVirtualService(h, env.isIP) == Some(w.vss.items[n].spec))
  {
    var n := env.Name(h);
    if n in w.ses.items && !Foreign(env.instance, w.ses.items[n].labels) {
      var g :| EntryFor(env, n, w.ses.items[n].spec, g);
      EndpointKeyInjective(env.instance, g, h);
    }
    if n in w.vss.items && !Foreign(env.instance, w.vss.items[n].labels) {
      var g :| ServiceFor(env, n, w.vss.items[n].spec, g);
      EndpointKeyInjective(env.instance, g, h);
    }
  }

  /** What a store offers for an endpoint: its own entry and, unless it is an IP address, its own route. */
  predicate Serves(env: Env, w: World, h: CommunicationHost) {
    var n := env.Name(h);
    && n in w.ses.items
    && (!Foreign(env.instance, w.ses.items[n].labels) ==> w.ses.items[n].spec == BuildServiceEntry(h, env.isIP))
    && (!env.isIP(h.host) ==>
          && n in w.vss.items
          && (!Foreign(env.instance, w.vss.items[n].labels) ==>
              Some(w.vss.items[n].spec) == BuildVirtualService(h, env.isIP)))
  }

  /** An object of someone else has the name. */
  predicate ForeignAt<S>(instance: string, items: Items<S>, n: string) {
    n in items && Foreign(instance, items[n].labels)
  }

  predicate SameForeign(env: Env, w: World, w': World, n: string) {
    && (ForeignAt(env.instance, w'.ses.items, n) <==> ForeignAt(env.instance, w.ses.items, n))
    && (ForeignAt(env.instance, w'.vss.items, n) <==> ForeignAt(env.instance, w.vss.items, n))
  }

  lemma FramedSameForeign<S>(
      env: Env, before: Items<S>, after: Items<S>, role: string, seen: set<string>, n: string)
    requires Framed(before, after, env.RoleLabels(role), seen) && (role == API_ROLE || role == ENDPOINT_ROLE)
    ensures ForeignAt(env.instance, after, n) <==> ForeignAt(env.instance, before, n)
  {
    SelectsSelf(env.RoleLabels(role));
  }

  lemma RoleSameForeign(env: Env, w: World, hosts: seq<CommunicationHost>, role: string, n: string)
    requires role == API_ROLE || role == ENDPOINT_ROLE
    ensures SameForeign(env, w, ConfigureRole(env, w, hosts, role).world, n)
  {
    var w' := ConfigureRole(env, w, hosts, role).world;
    ConfigureRoleFrame(env, w, hosts, role);
    FramedSameForeign(env, w.ses.items, w'.ses.items, role, Names(env, hosts), n);
    FramedSameForeign(env, w.vss.items, w'.vss.items, role, Names(env, hosts), n);
  }

  /** Whether a name is taken by someone else never changes, whichever calls fail. */
  lemma PassSameForeign(env: Env, w: World, inputs: Inputs, n: string)
    ensures SameForeign(env, w, Pass(env, w, inputs).world, n)
  {
    if inputs.enabled == Some(true) && inputs.apiHost.Some? {
      var api := ConfigureRole(env, w, [inputs.apiHost.value], API_ROLE);
      RoleSameForeign(env, w, [inputs.apiHost.value], API_ROLE, n);
      if api.result == Some(false) && inputs.endpoints.Some? {
        RoleSameForeign(env, api.world, inputs.endpoints.value, ENDPOINT_ROLE, n);
      }
    }
  }

  lemma {:induction false} PassesSameForeign(env: Env, w: World, inputs: Inputs, passes: nat, n: string)
    ensures SameForeign(env, w, Passes(env, w, inputs, passes), n)
    decreases passes
  {
    if passes > 0 {
      PassSameForeign(env, w, inputs, n);
      PassesSameForeign(env, Pass(env, w, inputs).world, inputs, passes - 1, n);
    }
  }

  /** An entry of the instance's own, with exactly the content built for the endpoint. */
  predicate OwnEntry(env: Env, w: World, h: CommunicationHost) {
    var n := env.Name(h);
    n in w.ses.items && !Foreign(env.instance, w.ses.items[n].labels)
    && w.ses.items[n].spec == BuildServiceEntry(h, env.isIP)
  }

  predicate OwnService(env: Env, w: World, h: CommunicationHost) {
    var n := env.Name(h);
    n in w.vss.items && !Foreign(env.instance, w.vss.items[n].labels)
    && Some(w.vss.items[n].spec) == BuildVirtualService(h, env.isIP)
  }

  /**
   * From a store whose own objects are genuine, three undisturbed passes later every desired endpoint has objects of
   * the
   * instance's own with exactly its content, each exactly if no object of someone else had the name to begin with.
   */
  lemma ThreePassesServe(env: Env, w: World, inputs: Inputs, n: nat, h: CommunicationHost)
    requires Quiet(env) && Hashes(env) && Answered(inputs) && CollisionFree(env.hash)
    requires Genuine(env, w) && InputsParsed(inputs) && n >= 3
    requires h == inputs.apiHost.value || h in inputs.endpoints.value
    ensures var w' := Passes(env, w, inputs, n);
            && Serves(env, w', h)
            && (OwnEntry(env, w', h) <==> !ForeignAt(env.instance, w.ses.items, env.Name(h)))
            && (!env.isIP(h.host) ==>
                  (OwnService(env, w', h) <==> !ForeignAt(env.instance, w.vss.items, env.Name(h))))
  {
    DesiredIsServed(env, w, inputs, n, h);
    PassesSameForeign(env, w, inputs, n, env.Name(h));
  }

  lemma DesiredIsServed(env: Env, w: World, inputs: Inputs, n: nat, h: CommunicationHost)
    requires Quiet(env) && Hashes(env) && Answered(inputs) && CollisionFree(env.hash)
    requires Genuine(env, w) && InputsParsed(inputs) && n >= 3
    requires h == inputs.apiHost.value || h in inputs.endpoints.value
    ensures Serves(env, Passes(env, w, inputs, n), h)
  {
    ConvergesInThreePasses(env, w, inputs, n);
    PassesGenuine(env, w, inputs, n);
    var w' := Passes(env, w, inputs, n);
    GenuineMatches(env, w', h);
    var hosts := if h == inputs.apiHost.value then [h] else inputs.endpoints.value;
    assert h in hosts;
    assert env.Name(h) in Names(env, hosts);
    assert !env.isIP(h.host) ==> env.Name(h) in RoutedNames(env, hosts);
  }

  /** A ServiceEntry that lets traffic to the endpoint out: by DNS for a name, by address for an IP. */
  predicate OpensEntry(e: ServiceEntry, h: CommunicationHost, isIP: bool) {
    && e.portNumber == h.port
    && if isIP then
         && e.addresses == [h.host + "/32"] && e.hosts == ["ignored.subdomain"]
         && e.portProtocol == "TCP" && e.portName == "TCP-" + Itoa(h.port) && e.resolution.ResolveNone?
       else
         && e.addresses == [] && e.hosts == [h.host]
         && e.portProtocol == (if h.protocol == "https" then "HTTPS" else "HTTP")
         && e.portName == h.protocol + "-" + Itoa(h.port) && e.resolution.ResolveDNS?
  }

  /** A VirtualService that routes the endpoint's traffic to it: by TLS for https, by HTTP for http. */
  predicate RoutesTo(v: VirtualService, h: CommunicationHost) {
    && v.hosts == [h.host]
    && v.route == if h.protocol == "https" then TlsRoute(h.host, h.port) else HttpRoute(h.host, h.port)
  }

  lemma UpperProtocols()
    ensures ToUpper("http") == "HTTP" && ToUpper("https") == "HTTPS"
  {
    assert ToUpper("") == "";
    assert "p"[1..] == "" && ToUpper("p") == "P" && "s"[1..] == "" && ToUpper("s") == "S";
    assert "ps"[1..] == "s" && ToUpper("ps") == "PS";
    assert "tp"[1..] == "p" && "tps"[1..] == "ps" && "ttp"[1..] == "tp" && "ttps"[1..] == "tps";
    assert "http"[1..] == "ttp" && "https"[1..] == "ttps";
    assert ToUpper("tp") == "TP" && ToUpper("tps") == "TPS" && ToUpper("ttp") == "TTP" && ToUpper("ttps") == "TTPS";
  }

  /** What the objects hold that three undisturbed passes leave for a desired endpoint, where its name was free. */
  lemma ServedContents(env: Env, w: World, inputs: Inputs, n: nat, h: CommunicationHost)
    requires Quiet(env) && Hashes(env) && Answered(inputs) && CollisionFree(env.hash)
    requires Genuine(env, w) && InputsParsed(inputs) && n >= 3
    requires h == inputs.apiHost.value || h in inputs.endpoints.value
    ensures var w', name := Passes(env, w, inputs, n), env.Name(h);
            && (!ForeignAt(env.instance, w.ses.items, name) ==>
                  name in w'.ses.items && OpensEntry(w'.ses.items[name].spec, h, env.isIP(h.host)))
            && (!env.isIP(h.host) && !ForeignAt(env.instance, w.vss.items, name) ==>
                  name in w'.vss.items && RoutesTo(w'.vss.items[name].spec, h))
  {
    ThreePassesServe(env, w, inputs, n, h);
    UpperProtocols();
    assert h.Parsed();
  }

  // ---------- three passes can be needed ----------

  /** What configuring a role makes of a store whose hosts are all IP addresses and that has no VirtualServices. */
  lemma ConfigureEntriesOnly(env: Env, w: World, hosts: seq<CommunicationHost>, role: string, doomed: set<string>)
    requires Quiet(env) && Hashes(env) && w.vss.items == map[] && forall h :: h in hosts ==> env.isIP(h.host)
    requires Doomed(w.ses.items, env.RoleLabels(role), Names(env, hosts)) == doomed
    ensures var o := ConfigureRole(env, w, hosts, role);
            && o.result == Some(doomed != {} || !(Names(env, hosts) <= w.ses.items.Keys))
            && (Names(env, hosts) <= w.ses.items.Keys ==> o.world.ses.items == w.ses.items - doomed)
            && o.world.vss.items == map[]
  {
    var o := ConfigureRole(env, w, hosts, role);
    var labels, seen := env.RoleLabels(role), Names(env, hosts);
    assert RoutedNames(env, hosts) == {};
    assert Doomed(w.vss.items, labels, seen) == {};
    assert RoleSettled(env, w, hosts, role) <==> doomed == {} && seen <= w.ses.items.Keys;
    assert Configured(w.ses.items, o.world.ses.items, seen, labels, seen)
        && Configured(w.vss.items, o.world.vss.items, {}, labels, seen)
        && o.result == Some(!RoleSettled(env, w, hosts, role)) by {
      ConfigureRoleQuiet(env, w, hosts, role);
    }
    ConfiguredRemoves(w.vss.items, o.world.vss.items, {}, labels, seen);
    if seen <= w.ses.items.Keys {
      ConfiguredRemoves(w.ses.items, o.world.ses.items, seen, labels, seen);
    }
  }

  lemma ConfiguredRemoves<S>(before: Items<S>, after: Items<S>, wanted: set<string>, labels: Labels, seen: set<string>)
    requires Configured(before, after, wanted, labels, seen) && wanted <= before.Keys
    ensures after == before - Doomed(before, labels, seen)
  {
    assert after.Keys == (before - Doomed(before, labels, seen)).Keys;
  }

  /** The endpoints' entries, all in place under the endpoints' role. */
  function InPlace(env: Env, inputs: Inputs, entry: ServiceEntry): Items<ServiceEntry>
    requires Answered(inputs)
  {
    map n | n in Names(env, inputs.endpoints.value) :: Stored(env.RoleLabels(ENDPOINT_ROLE), entry)
  }

  /** Besides these, the API host's name carries the endpoints' role. */
  function Taken(env: Env, inputs: Inputs, entry: ServiceEntry): Items<ServiceEntry>
    requires Answered(inputs)
  {
    InPlace(env, inputs, entry)[env.Name(inputs.apiHost.value) := Stored(env.RoleLabels(ENDPOINT_ROLE), entry)]
  }

  /** Besides these, an unused API object of the name x is left over. */
  function Tangled(env: Env, inputs: Inputs, entry: ServiceEntry, x: string): Items<ServiceEntry>
    requires Answered(inputs)
  {
    Taken(env, inputs, entry)[x := Stored(env.RoleLabels(API_ROLE), entry)]
  }

  /** All hosts are IP addresses, and the API host, the endpoints and x have different names. */
  predicate Apart(env: Env, inputs: Inputs, x: string)
    requires Answered(inputs)
  {
    && env.isIP(inputs.apiHost.value.host) && (forall h :: h in inputs.endpoints.value ==> env.isIP(h.host))
    && env.Name(inputs.apiHost.value) !in Names(env, inputs.endpoints.value)
    && x !in Names(env, inputs.endpoints.value) && x != env.Name(inputs.apiHost.value)
  }

  /**
   * The two roles undo each other's work here, whatever the endpoints: the first pass deletes x, the second what has
   * the API host's name, and the third creates that again.
   */
  lemma ThreePassesCanBeNeeded(env: Env, inputs: Inputs, entry: ServiceEntry, x: string)
    requires Quiet(env) && Hashes(env) && Answered(inputs) && Apart(env, inputs, x)
    ensures var w0 := World(View(Tangled(env, inputs, entry, x), 0), View(map[], 0));
            var first := Pass(env, w0, inputs);
            var second := Pass(env, first.world, inputs);
            var third := Pass(env, second.world, inputs);
            first.result == Some(true) && second.result == Some(true) && third.result == Some(true)
  {
    var w0 := World(View(Tangled(env, inputs, entry, x), 0), View(map[], 0));
    var w1 := FirstOfThree(env, w0, inputs, entry, x);
    var w2 := SecondOfThree(env, w1, inputs, entry, x);
    ThirdOfThree(env, w2, inputs, entry, x);
  }

  lemma FirstOfThree(env: Env, w: World, inputs: Inputs, entry: ServiceEntry, x: string) returns (w': World)
    requires Quiet(env) && Hashes(env) && Answered(inputs) && Apart(env, inputs, x)
    requires w.ses.items == Tangled(env, inputs, entry, x) && w.vss.items == map[]
    ensures Pass(env, w, inputs) == Outcome(w', Some(true))
    ensures w'.ses.items == Taken(env, inputs, entry) && w'.vss.items == map[]
  {
    var hosts := [inputs.apiHost.value];
    assert Names(env, hosts) == {env.Name(inputs.apiHost.value)};
    RolesExclusive(env, env.RoleLabels(ENDPOINT_ROLE));
    SelectsSelf(env.RoleLabels(API_ROLE));
    ConfigureEntriesOnly(env, w, hosts, API_ROLE, {x});
    w' := ConfigureRole(env, w, hosts, API_ROLE).world;
    assert Tangled(env, inputs, entry, x) - {x} == Taken(env, inputs, entry);
  }

  lemma SecondOfThree(env: Env, w: World, inputs: Inputs, entry: ServiceEntry, x: string) returns (w': World)
    requires Quiet(env) && Hashes(env) && Answered(inputs) && Apart(env, inputs, x)
    requires w.ses.items == Taken(env, inputs, entry) && w.vss.items == map[]
    ensures Pass(env, w, inputs) == Outcome(w', Some(true))
    ensures w'.ses.items == InPlace(env, inputs, entry) && w'.vss.items == map[]
  {
    var hosts, endpoints := [inputs.apiHost.value], inputs.endpoints.value;
    var a := env.Name(inputs.apiHost.value);
    assert Names(env, hosts) == {a};
    RolesExclusive(env, env.RoleLabels(ENDPOINT_ROLE));
    SelectsSelf(env.RoleLabels(ENDPOINT_ROLE));
    ConfigureEntriesOnly(env, w, hosts, API_ROLE, {});
    var mid := ConfigureRole(env, w, hosts, API_ROLE).world;
    assert w.ses.items - {} == w.ses.items;
    ConfigureEntriesOnly(env, mid, endpoints, ENDPOINT_ROLE, {a});
    w' := ConfigureRole(env, mid, endpoints, ENDPOINT_ROLE).world;
    assert Taken(env, inputs, entry) - {a} == InPlace(env, inputs, entry);
  }

  lemma ThirdOfThree(env: Env, w: World, inputs: Inputs, entry: ServiceEntry, x: string)
    requires Quiet(env) && Hashes(env) && Answered(inputs) && Apart(env, inputs, x)
    requires w.ses.items == InPlace(env, inputs, entry) && w.vss.items == map[]
    ensures Pass(env, w, inputs).result == Some(true)
  {
    var hosts := [inputs.apiHost.value];
    assert env.Name(inputs.apiHost.value) in Names(env, hosts);
    RolesExclusive(env, env.RoleLabels(ENDPOINT_ROLE));
    ConfigureEntriesOnly(env, w, hosts, API_ROLE, {});
  }
}
