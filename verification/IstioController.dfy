/** Creating and removing the Istio objects of a OneAgent for its two roles. */
module IstioController {
  import opened Common
  import opened IstioObjects

  const API_ROLE := "api-url"
  const ENDPOINT_ROLE := "communication-endpoint"

  // ---------- one kind of object on the API server ----------

  datatype Fault = NoFault | NoMatch | Failure

  /** Which calls fail: a call is known by how many calls came before it and the object it names. */
  datatype Oracle = Oracle(faults: (nat, string) -> Fault, deleteFails: (nat, string) -> bool)

  datatype Stored<+S> = Stored(labels: Labels, spec: S)

  /** The objects of one kind, by name, and the number of calls made so far. */
  datatype View<+S> = View(items: map<string, Stored<S>>, calls: nat) {
    function Called(): View<S> {
      this.(calls := calls + 1)
    }
  }

  datatype ProbeResult = ObjectFound | ObjectNotFound | TypeNotFound | Unknown

  function ProbeObject<S>(o: Oracle, v: View<S>, name: string): ProbeResult {
    match o.faults(v.calls, name)
    case NoMatch => TypeNotFound
    case Failure => Unknown
    case NoFault => if name == "" || name in v.items then ObjectFound else ObjectNotFound
  }

  /** Names a sweep has to delete: selected by label, but not in use. */
  function Doomed<S>(items: map<string, Stored<S>>, selector: Labels, seen: set<string>): set<string> {
    set n | n in items && Selects(selector, items[n].labels) && n !in seen
  }

  class Collection<S> {
    var items: map<string, Stored<S>>
    var calls: nat
    const oracle: Oracle

    constructor (items: map<string, Stored<S>>, oracle: Oracle)
      ensures this.items == items && this.oracle == oracle && calls == 0
    {
      this.items, this.oracle, calls := items, oracle, 0;
    }

    ghost function Current(): View<S>
      reads this
    {
      View(items, calls)
    }

    method Probe(name: string) returns (p: ProbeResult)
      modifies this`calls
      ensures p == ProbeObject(oracle, old(Current()), name) && Current() == old(Current()).Called()
    {
      var fault := oracle.faults(calls, name);
      calls := calls + 1;
      match fault
      case NoMatch => p := TypeNotFound;
      case Failure => p := Unknown;
      case NoFault => p := if name == "" || name in items then ObjectFound else ObjectNotFound;
    }

    method Create(name: string, entity: Stored<S>) returns (ok: bool)
      modifies this
      ensures ok == (oracle.faults(old(calls), name).NoFault? && name !in old(items))
      ensures Current() == View(if ok then old(items)[name := entity] else old(items), old(calls) + 1)
    {
      ok := oracle.faults(calls, name).NoFault? && name !in items;
      calls := calls + 1;
      if ok {
        items := items[name := entity];
      }
    }

    /** The objects the selector matches, or None when the call fails. */
    method List(selector: Labels) returns (list: Option<set<string>>)
      modifies this`calls
      ensures Current() == old(Current()).Called()
      ensures list == if oracle.faults(old(calls), "").NoFault?
                      then Some(set n | n in items && Selects(selector, items[n].labels))
                      else None
    {
      var ok := oracle.faults(calls, "").NoFault?;
      calls := calls + 1;
      list := if ok then Some(set n | n in items && Selects(selector, items[n].labels)) else None;
    }

    method Delete(name: string) returns (ok: bool)
      modifies this`items
      ensures ok == (name in old(items) && !oracle.deleteFails(calls, name))
      ensures items == if ok then old(items) - {name} else old(items)
    {
      ok := name in items && !oracle.deleteFails(calls, name);
      if ok {
        items := items - {name};
      }
    }
  }

  // ---------- one object, one sweep ----------

  /** Probe for an object by name and create it if it is missing; None is an error. */
  function HandleObject<S>(
      o: Oracle, v: View<S>, name: string, built: Option<S>, labels: Labels): (View<S>, Option<bool>)
  {
    var probe := ProbeObject(o, v, name);
    if probe.ObjectFound? then (v.Called(), Some(false))
    else if probe.Unknown? then (v.Called(), None)
    else if built.None? then (v.Called(), Some(false))
    else if o.faults(v.calls + 1, name).NoFault? && name !in v.items then
      (View(v.items[name := Stored(labels, built.value)], v.calls + 2), Some(true))
    else (View(v.items, v.calls + 2), None)
  }

  /** List by label and delete what is not in use; a failed deletion is skipped. */
  function Sweep<S>(o: Oracle, v: View<S>, selector: Labels, seen: set<string>): (View<S>, Option<bool>) {
    if !o.faults(v.calls, "").NoFault? then (v.Called(), None)
    else
      var deleted := set n | n in Doomed(v.items, selector, seen) && !o.deleteFails(v.calls + 1, n);
      (View(v.items - deleted, v.calls + 1), Some(deleted != {}))
  }

  method HandleIstioConfiguration<S>(
      c: Collection<S>, name: string, built: Option<S>, labels: Labels) returns (created: Option<bool>)
    modifies c
    ensures (c.Current(), created) == HandleObject(c.oracle, old(c.Current()), name, built, labels)
  {
    var probe := c.Probe(name);
    if probe.ObjectFound? {
      return Some(false);
    } else if probe.Unknown? {
      return None;
    }
    if built.None? {
      return Some(false);
    }
    var ok := c.Create(name, Stored(labels, built.value));
    if !ok {
      return None;
    }
    return Some(true);
  }

  method RemoveIstioConfiguration<S>(
      c: Collection<S>, selector: Labels, seen: set<string>) returns (deleted: Option<bool>)
    modifies c
    ensures (c.Current(), deleted) == Sweep(c.oracle, old(c.Current()), selector, seen)
  {
    ghost var before := c.items;
    var list := c.List(selector);
    if list.None? {
      return None;
    }
    var del := false;
    var todo := list.value;
    ghost var gone: set<string> := {};
    while todo != {}
      invariant c.calls == old(c.calls) + 1
      invariant todo <= list.value
      invariant gone == set n | n in list.value - todo && n !in seen && !c.oracle.deleteFails(c.calls, n)
      invariant c.items == before - gone
      invariant del <==> gone != {}
      decreases todo
    {
      var name :| name in todo;
      todo := todo - {name};
      if name !in seen {
        var ok := c.Delete(name);
        if ok {
          del := true;
          gone := gone + {name};
        }
      }
    }
    assert gone == set n | n in Doomed(before, selector, seen) && !c.oracle.deleteFails(c.calls, n);
    return Some(del);
  }

  // ---------- a role, and a whole pass ----------

  datatype World = World(ses: View<ServiceEntry>, vss: View<VirtualService>)

  /** The state after a step and its (bool, error) result, None being the error. */
  datatype Outcome = Outcome(world: World, result: Option<bool>)

  /** What stays fixed during a pass. */
  datatype Env = Env(
    instance: string,
    hash: string -> string,
    isIP: string -> bool,
    seOracle: Oracle,
    vsOracle: Oracle)
  {
    function Name(h: CommunicationHost): string {
      NameForEndpoint(hash, instance, h)
    }

    function RoleLabels(role: string): Labels {
      IstioLabels(instance, role)
    }
  }

  function Names(env: Env, hosts: seq<CommunicationHost>): set<string> {
    set h | h in hosts :: env.Name(h)
  }

  lemma NamesAppend(env: Env, hosts: seq<CommunicationHost>, h: CommunicationHost)
    ensures Names(env, hosts + [h]) == Names(env, hosts) + {env.Name(h)}
  {
    assert forall g :: g in hosts + [h] <==> g in hosts || g == h;
  }

  /** Names under which a VirtualService is wanted: those of endpoints that are not IP addresses. */
  function RoutedNames(env: Env, hosts: seq<CommunicationHost>): set<string> {
    set h | h in hosts && !env.isIP(h.host) :: env.Name(h)
  }

  function CreateHosts(env: Env, w: World, hosts: seq<CommunicationHost>, role: string): Outcome
    decreases |hosts|
  {
    if hosts == [] then Outcome(w, Some(false))
    else
      var h := hosts[0];
      var (ses, entry) := HandleObject(env.seOracle, w.ses, env.Name(h), Some(BuildServiceEntry(h, env.isIP)),
          env.RoleLabels(role));
      if entry.None? then Outcome(World(ses, w.vss), None)
      else
        var (vss, service) := HandleObject(env.vsOracle, w.vss, env.Name(h), BuildVirtualService(h, env.isIP),
            env.RoleLabels(role));
        if service.None? then Outcome(World(ses, vss), None)
        else
          var rest := CreateHosts(env, World(ses, vss), hosts[1..], role);
          if rest.result.None? then rest
          else rest.(result := Some(entry.value || service.value || rest.result.value))
  }

  /** Creation is skipped, without an error, when one of the two types is unknown to the API server. */
  function CreateRole(env: Env, w: World, hosts: seq<CommunicationHost>, role: string): Outcome {
    var w1 := World(w.ses.Called(), w.vss);
    if ProbeObject(env.seOracle, w.ses, "").TypeNotFound? then Outcome(w1, Some(false))
    else
      var w2 := World(w1.ses, w.vss.Called());
      if ProbeObject(env.vsOracle, w.vss, "").TypeNotFound? then Outcome(w2, Some(false))
      else CreateHosts(env, w2, hosts, role)
  }

  function RemoveRole(env: Env, w: World, hosts: seq<CommunicationHost>, role: string): Outcome {
    var (vss, services) := Sweep(env.vsOracle, w.vss, env.RoleLabels(role), Names(env, hosts));
    if services.None? then Outcome(World(w.ses, vss), None)
    else
      var (ses, entries) := Sweep(env.seOracle, w.ses, env.RoleLabels(role), Names(env, hosts));
      Outcome(World(ses, vss), if entries.None? then None else Some(services.value || entries.value))
  }

  function ConfigureRole(env: Env, w: World, hosts: seq<CommunicationHost>, role: string): Outcome {
    var add := CreateRole(env, w, hosts, role);
    if add.result.None? then add
    else
      var rem := RemoveRole(env, add.world, hosts, role);
      if rem.result.None? then rem else rem.(result := Some(add.result.value || rem.result.value))
  }

  /** What discovery and the Dynatrace API answer during a pass; None is a failed call. */
  datatype Inputs = Inputs(
    enabled: Option<bool>,
    apiHost: Option<CommunicationHost>,
    endpoints: Option<seq<CommunicationHost>>)

  function Pass(env: Env, w: World, inputs: Inputs): Outcome {
    if inputs.enabled.None? then Outcome(w, None)
    else if !inputs.enabled.value then Outcome(w, Some(false))
    else if inputs.apiHost.None? then Outcome(w, None)
    else
      var api := ConfigureRole(env, w, [inputs.apiHost.value], API_ROLE);
      if api.result.None? || api.result.value then api
      else if inputs.endpoints.None? then Outcome(api.world, None)
      else ConfigureRole(env, api.world, inputs.endpoints.value, ENDPOINT_ROLE)
  }

  class Controller {
    const serviceEntries: Collection<ServiceEntry>
    const virtualServices: Collection<VirtualService>
    const instance: string
    const hash: string -> string
    const isIP: string -> bool

    constructor (serviceEntries: Collection<ServiceEntry>, virtualServices: Collection<VirtualService>,
                 instance: string, hash: string -> string, isIP: string -> bool)
      ensures this.serviceEntries == serviceEntries && this.virtualServices == virtualServices
      ensures this.instance == instance && this.hash == hash && this.isIP == isIP
    {
      this.serviceEntries, this.virtualServices := serviceEntries, virtualServices;
      this.instance, this.hash, this.isIP := instance, hash, isIP;
    }

    ghost predicate Valid() {
      (serviceEntries as object) != virtualServices
    }

    function Environment(): Env {
      Env(instance, hash, isIP, serviceEntries.oracle, virtualServices.oracle)
    }

    ghost function Current(): World
      reads serviceEntries, virtualServices
    {
      World(serviceEntries.Current(), virtualServices.Current())
    }

    method VerifyIstioCrdAvailability() returns (available: bool)
      requires Valid()
      modifies serviceEntries`calls, virtualServices`calls
      ensures var w := old(Current());
              var noEntry := ProbeObject(serviceEntries.oracle, w.ses, "").TypeNotFound?;
              && available == (!noEntry && !ProbeObject(virtualServices.oracle, w.vss, "").TypeNotFound?)
              && Current() == World(w.ses.Called(), if noEntry then w.vss else w.vss.Called())
    {
      var probe := serviceEntries.Probe("");
      if probe.TypeNotFound? {
        return false;
      }
      probe := virtualServices.Probe("");
      if probe.TypeNotFound? {
        return false;
      }
      return true;
    }

    method ReconcileIstioCreateConfigurations(
        hosts: seq<CommunicationHost>, role: string) returns (updated: Option<bool>)
      requires Valid()
      modifies serviceEntries, virtualServices
      ensures Outcome(Current(), updated) == CreateRole(Environment(), old(Current()), hosts, role)
    {
      var available := VerifyIstioCrdAvailability();
      if !available {
        return Some(false);
      }
      ghost var env := Environment();
      ghost var whole := CreateHosts(env, Current(), hosts, role);
      assert hosts[0..] == hosts;
      var configurationUpdated := false;
      for i := 0 to |hosts|
        invariant var rest := CreateHosts(env, Current(), hosts[i..], role);
                  whole == if rest.result.None? then rest
                           else rest.(result := Some(configurationUpdated || rest.result.value))
      {
        var h := hosts[i];
        assert hosts[i..][0] == h && hosts[i..][1..] == hosts[i + 1..];
        var name := NameForEndpoint(hash, instance, h);
        var labels := IstioLabels(instance, role);
        var createdServiceEntry := HandleIstioConfiguration(serviceEntries, name, Some(BuildServiceEntry(h, isIP)),
            labels);
        if createdServiceEntry.None? {
          return None;
        }
        var createdVirtualService := HandleIstioConfiguration(virtualServices, name, BuildVirtualService(h, isIP),
            labels);
        if createdVirtualService.None? {
          return None;
        }
        configurationUpdated := configurationUpdated || createdServiceEntry.value || createdVirtualService.value;
      }
      return Some(configurationUpdated);
    }

    method ReconcileIstioRemoveConfigurations(
        hosts: seq<CommunicationHost>, role: string) returns (updated: Option<bool>)
      requires Valid()
      modifies serviceEntries, virtualServices
      ensures Outcome(Current(), updated) == RemoveRole(Environment(), old(Current()), hosts, role)
    {
      var selector := IstioLabels(instance, role);
      var seen: set<string> := {};
      for i := 0 to |hosts|
        invariant seen == Names(Environment(), hosts[..i])
        invariant Current() == old(Current())
      {
        seen := seen + {NameForEndpoint(hash, instance, hosts[i])};
        assert hosts[..i + 1] == hosts[..i] + [hosts[i]];
        NamesAppend(Environment(), hosts[..i], hosts[i]);
      }
      assert hosts[..|hosts|] == hosts;
      ghost var w := Current();
      var vsUpd := RemoveIstioConfiguration(virtualServices, selector, seen);
      assert serviceEntries.Current() == w.ses;
      if vsUpd.None? {
        return None;
      }
      var seUpd := RemoveIstioConfiguration(serviceEntries, selector, seen);
      if seUpd.None? {
        return None;
      }
      return Some(vsUpd.value || seUpd.value);
    }

    method ReconcileIstioConfigurations(hosts: seq<CommunicationHost>, role: string) returns (updated: Option<bool>)
      requires Valid()
      modifies serviceEntries, virtualServices
      ensures Outcome(Current(), updated) == ConfigureRole(Environment(), old(Current()), hosts, role)
    {
      var add := ReconcileIstioCreateConfigurations(hosts, role);
      if add.None? {
        return None;
      }
      var rem := ReconcileIstioRemoveConfigurations(hosts, role);
      if rem.None? {
        return None;
      }
      return Some(add.value || rem.value);
    }

    method ReconcileIstio(inputs: Inputs) returns (updated: Option<bool>)
      requires Valid()
      modifies serviceEntries, virtualServices
      ensures Outcome(Current(), updated) == Pass(Environment(), old(Current()), inputs)
    {
      if inputs.enabled.None? {
        return None;
      }
      if !inputs.enabled.value {
        return Some(false);
      }
      if inputs.apiHost.None? {
        return None;
      }
      var upd := ReconcileIstioConfigurations([inputs.apiHost.value], API_ROLE);
      if upd.None? {
        return None;
      } else if upd.value {
        return Some(true);
      }
      if inputs.endpoints.None? {
        return None;
      }
      upd := ReconcileIstioConfigurations(inputs.endpoints.value, ENDPOINT_ROLE);
      return upd;
    }
  }
}
