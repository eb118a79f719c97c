/** Names, labels and contents of the Istio objects the operator creates for a communication endpoint. */
module IstioObjects {
  import opened Common
  import opened Text

  /** Go's uint32. */
  type uint32 = n: int | 0 <= n < 0x1_0000_0000

  datatype CommunicationHost = CommunicationHost(protocol: string, host: string, port: uint32) {
    /** What parsing an endpoint URL can produce. */
    predicate Parsed() {
      protocol == "http" || protocol == "https"
    }
  }

  type Labels = map<string, string>

  function IstioLabels(instance: string, role: string): Labels {
    map["dynatrace" := "oneagent", "oneagent" := instance, "dynatrace-istio-role" := role]
  }

  datatype Resolution = ResolveDNS | ResolveNone

  datatype ServiceEntry = ServiceEntry(
    hosts: seq<string>,
    addresses: seq<string>,
    portName: string,
    portNumber: uint32,
    portProtocol: string,
    resolution: Resolution)

  datatype Route = TlsRoute(host: string, port: uint32) | HttpRoute(host: string, port: uint32) | NoRoute

  datatype VirtualService = VirtualService(hosts: seq<string>, route: Route)

  function ToUpper(s: string): string {
    if s == "" then ""
    else [if 'a' <= s[0] <= 'z' then (s[0] as int - 'a' as int + 'A' as int) as char else s[0]] + ToUpper(s[1..])
  }

  function BuildServiceEntry(h: CommunicationHost, isIP: string -> bool): ServiceEntry {
    if isIP(h.host) then
      ServiceEntry(["ignored.subdomain"], [h.host + "/32"], "TCP-" + Itoa(h.port), h.port, "TCP", ResolveNone)
    else
      ServiceEntry([h.host], [], h.protocol + "-" + Itoa(h.port), h.port, ToUpper(h.protocol), ResolveDNS)
  }

  function BuildVirtualService(h: CommunicationHost, isIP: string -> bool): Option<VirtualService> {
    if isIP(h.host) then None
    else Some(VirtualService([h.host],
                             if h.protocol == "https" then TlsRoute(h.host, h.port)
                             else if h.protocol == "http" then HttpRoute(h.host, h.port)
                             else NoRoute))
  }

  /** The string whose hash names the objects of an endpoint. */
  function EndpointKey(instance: string, h: CommunicationHost): string {
    instance + "-" + h.protocol + "-" + h.host + "-" + Itoa(h.port)
  }

  function NameForEndpoint(hash: string -> string, instance: string, h: CommunicationHost): string {
    hash(EndpointKey(instance, h))
  }

  // ---------- the key determines the endpoint ----------

  lemma {:induction false} LastDashUnique(a: string, m: string, b: string, n: string)
    requires Free(m, '-') && Free(n, '-')
    requires a + ['-'] + m == b + ['-'] + n
    ensures a == b && m == n
  {
    var s := a + ['-'] + m;
    assert s[|a|] == '-' && s[|b|] == '-';
    assert forall j :: |a| < j < |s| ==> s[j] == m[j - |a| - 1];
    assert forall j :: |b| < j < |s| ==> s[j] == n[j - |b| - 1];
    assert |a| == |b|;
    assert m == s[|s| - |m|..] == n;
    assert a == s[..|a|] == b;
  }

  lemma PortHasNoDash(port: uint32)
    ensures Free(Itoa(port), '-')
  {
    assert AllDigits(Numeral(port));
  }

  /** For one instance, different parsed endpoints have different keys. */
  lemma EndpointKeyInjective(instance: string, g: CommunicationHost, h: CommunicationHost)
    requires g.Parsed() && h.Parsed()
    requires EndpointKey(instance, g) == EndpointKey(instance, h)
    ensures g == h
  {
    SameKeySameHead(instance, g, instance, h);
    var gHead, hHead := KeyHead(instance, g), KeyHead(instance, h);
    var at := |instance| + 5;
    assert gHead[at] == (if g.protocol == "http" then '-' else 's');
    assert hHead[at] == (if h.protocol == "http" then '-' else 's');
    assert g.protocol == h.protocol;
    var from := |instance| + |g.protocol| + 2;
    assert g.host == gHead[from..] == hHead[from..] == h.host;
  }

  // ---------- across instances it does not ----------

  /** Two parsed endpoints of the two instances have the same key. */
  ghost predicate CanCollide(a: string, b: string) {
    exists g: CommunicationHost, h: CommunicationHost ::
      g.Parsed() && h.Parsed() && EndpointKey(a, g) == EndpointKey(b, h)
  }

  /** The longer name continues the shorter one with a whole word for a protocol. */
  predicate ContinuesWith(a: string, protocol: string, b: string) {
    b == a + "-" + protocol || a + "-" + protocol + "-" <= b
  }

  predicate Continues(a: string, b: string) {
    ContinuesWith(a, "http", b) || ContinuesWith(a, "https", b)
  }

  /** The key without its port. */
  function KeyHead(instance: string, h: CommunicationHost): string {
    instance + "-" + h.protocol + "-" + h.host
  }

  lemma SameKeySameHead(a: string, g: CommunicationHost, b: string, h: CommunicationHost)
    requires EndpointKey(a, g) == EndpointKey(b, h)
    ensures KeyHead(a, g) == KeyHead(b, h) && g.port == h.port
  {
    PortHasNoDash(g.port);
    PortHasNoDash(h.port);
    assert EndpointKey(a, g) == KeyHead(a, g) + ['-'] + Itoa(g.port);
    assert EndpointKey(b, h) == KeyHead(b, h) + ['-'] + Itoa(h.port);
    LastDashUnique(KeyHead(a, g), Itoa(g.port), KeyHead(b, h), Itoa(h.port));
    ItoaInjective(g.port, h.port);
  }

  lemma SameHeadContinues(a: string, g: CommunicationHost, b: string, h: CommunicationHost)
    requires g.Parsed() && KeyHead(a, g) == KeyHead(b, h) && |a| < |b|
    ensures Continues(a, b)
  {
    var head, word := KeyHead(a, g), a + "-" + g.protocol;
    assert a <= head && b <= head && word + "-" <= head;
    assert head[|b|] == '-';
    assert Free(g.protocol, '-');
    DashAfterWord(a, g.protocol, head, |b|);
    if |b| == |word| {
      assert b == head[..|b|] == word;
    } else {
      assert b[..|word| + 1] == head[..|word| + 1] == word + "-";
    }
  }

  /** After the first dash behind a, the next one is behind the protocol. */
  lemma DashAfterWord(a: string, protocol: string, head: string, at: nat)
    requires Free(protocol, '-') && a + "-" + protocol + "-" <= head
    requires |a| < at < |head| && head[at] == '-'
    ensures at >= |a| + 1 + |protocol|
  {
    assert forall j :: 0 <= j < |protocol| ==> head[|a| + 1 + j] == protocol[j];
    if at < |a| + 1 + |protocol| {
      assert false;
    }
  }

  lemma SameHeadSameInstance(a: string, g: CommunicationHost, b: string, h: CommunicationHost)
    requires KeyHead(a, g) == KeyHead(b, h) && |a| == |b|
    ensures a == b
  {
    assert a == KeyHead(a, g)[..|a|];
    assert b == KeyHead(b, h)[..|b|];
  }

  lemma SameHeadCollides(a: string, g: CommunicationHost, b: string, h: CommunicationHost)
    requires g.Parsed() && h.Parsed() && KeyHead(a, g) == KeyHead(b, h) && g.port == h.port
    ensures CanCollide(a, b)
  {
    assert EndpointKey(a, g) == KeyHead(a, g) + "-" + Itoa(g.port);
    assert EndpointKey(b, h) == KeyHead(b, h) + "-" + Itoa(h.port);
  }

  lemma EndedCollides(a: string, protocol: string, h: CommunicationHost)
    requires CommunicationHost(protocol, "", 0).Parsed() && h.Parsed()
    ensures CanCollide(a, a + "-" + protocol)
  {
    var g := CommunicationHost(protocol, h.protocol + "-" + h.host, h.port);
    var word := a + "-" + protocol + "-";
    assert KeyHead(a, g) == word + (h.protocol + "-" + h.host);
    assert KeyHead(a + "-" + protocol, h) == word + h.protocol + "-" + h.host;
    SameHeadCollides(a, g, a + "-" + protocol, h);
  }

  lemma ContinuedCollides(a: string, protocol: string, rest: string, h: CommunicationHost)
    requires CommunicationHost(protocol, "", 0).Parsed() && h.Parsed()
    ensures CanCollide(a, a + "-" + protocol + "-" + rest)
  {
    var tail := "-" + h.protocol + "-" + h.host;
    var g := CommunicationHost(protocol, rest + tail, h.port);
    var word := a + "-" + protocol + "-";
    assert KeyHead(a, g) == word + (rest + tail);
    assert KeyHead(word + rest, h) == word + rest + "-" + h.protocol + "-" + h.host;
    assert word + rest + "-" + h.protocol + "-" + h.host == word + rest + tail;
    SameHeadCollides(a, g, word + rest, h);
  }

  lemma ContinuesCollides(a: string, protocol: string, b: string)
    requires CommunicationHost(protocol, "", 0).Parsed()
    requires ContinuesWith(a, protocol, b)
    ensures CanCollide(a, b)
  {
    var word, h := a + "-" + protocol, CommunicationHost("http", "", 0);
    if b == word {
      EndedCollides(a, protocol, h);
    } else {
      assert b == word + "-" + b[|word| + 1..];
      ContinuedCollides(a, protocol, b[|word| + 1..], h);
    }
  }

  lemma CanCollideSymmetric(a: string, b: string)
    requires CanCollide(a, b)
    ensures CanCollide(b, a)
  {
    var g: CommunicationHost, h: CommunicationHost :|
      g.Parsed() && h.Parsed() && EndpointKey(a, g) == EndpointKey(b, h);
    assert EndpointKey(b, h) == EndpointKey(a, g);
  }

  /**
   * Two instances, of one kind or two, can claim the same object name, whatever the hash, exactly when they have the
   * same
   * name, or the name of one continues the name of the other with "-http" or "-https" and either ends there or goes on
   * after another dash.
   */
  lemma InstancesCollideIff(a: string, b: string)
    ensures CanCollide(a, b) <==> a == b || Continues(a, b) || Continues(b, a)
  {
    if a == b {
      var h := CommunicationHost("http", "", 0);
      assert EndpointKey(a, h) == EndpointKey(b, h);
      return;
    }
    if CanCollide(a, b) {
      var g: CommunicationHost, h: CommunicationHost :|
        g.Parsed() && h.Parsed() && EndpointKey(a, g) == EndpointKey(b, h);
      SameKeySameHead(a, g, b, h);
      if |a| < |b| {
        SameHeadContinues(a, g, b, h);
      } else if |b| < |a| {
        SameHeadContinues(b, h, a, g);
      } else {
        SameHeadSameInstance(a, g, b, h);
        assert false;
      }
    }
    if Continues(a, b) {
      ContinuesCollides(a, if ContinuesWith(a, "http", b) then "http" else "https", b);
    }
    if Continues(b, a) {
      ContinuesCollides(b, if ContinuesWith(b, "http", a) then "http" else "https", a);
      CanCollideSymmetric(b, a);
    }
  }

  /** For instance "a" and "a-http". */
  lemma EndpointKeyCollidesAcrossInstances()
    ensures EndpointKey("a", CommunicationHost("http", "http-b", 1))
         == EndpointKey("a-http", CommunicationHost("http", "b", 1))
    ensures CanCollide("a", "a-http")
  {
    assert "a" + "-" + "http" + "-" + "http-b" + "-" == "a-http" + "-" + "http" + "-" + "b" + "-";
  }
}
