/** The API client's host cache: filled once from a response, then answering every lookup by IP. */
module HostCache {
  import opened Common
  import Versions
  import AgentUpdate

  /** One host of the API response; the last-seen timestamp is in milliseconds. */
  datatype HostInfoResponse = HostInfoResponse(
    ipAddresses: seq<string>,
    agentVersion: Option<Versions.AgentVersion>,
    entityID: string,
    networkZoneID: string,
    lastSeenTimestamp: int)

  datatype HostInfo = HostInfo(version: string, entityID: string)

  /** What the API server would answer to a request for the hosts. */
  datatype Response = Unreachable | Malformed | Hosts(hosts: seq<HostInfoResponse>)

  datatype LookupError = InvalidIP | BuildFailed | HostNotFound | NotSet

  const NANOS_PER_SECOND: int := 1_000_000_000
  const THIRTY_MINUTES: int := 30 * 60 * NANOS_PER_SECOND

  /** Go's integer division of a timestamp by 1000, which truncates toward zero. */
  function ToSeconds(millis: int): (s: int)
    ensures millis >= 0 ==> s * 1000 <= millis < s * 1000 + 1000
    ensures millis < 0 ==> s * 1000 - 1000 < millis <= s * 1000
  {
    if millis >= 0 then millis / 1000 else -((-millis) / 1000)
  }

  /** now is in nanoseconds. */
  predicate SeenRecently(host: HostInfoResponse, now: int) {
    ToSeconds(host.lastSeenTimestamp) * NANOS_PER_SECOND >= now - THIRTY_MINUTES
  }

  /** Without a configured zone only hosts in the default zone, or in none, are taken. */
  predicate ZoneMatches(configured: string, zone: string) {
    if configured != "" then zone == configured else zone == "default" || zone == ""
  }

  predicate Eligible(host: HostInfoResponse, zone: string, now: int) {
    SeenRecently(host, now) && ZoneMatches(zone, host.networkZoneID)
  }

  function InfoOf(host: HostInfoResponse): HostInfo {
    HostInfo(if host.agentVersion.Some? then Versions.Print(host.agentVersion.value) else "", host.entityID)
  }

  predicate Lists(host: HostInfoResponse, ip: string, zone: string, now: int) {
    Eligible(host, zone, now) && ip in host.ipAddresses
  }

  /** The simple form: scan the response from its end for an eligible host that lists the IP. */
  function Scan(hosts: seq<HostInfoResponse>, ip: string, zone: string, now: int): Option<HostInfo> {
    if hosts == [] then None
    else
      var last := hosts[|hosts| - 1];
      if Lists(last, ip, zone, now) then Some(InfoOf(last)) else Scan(hosts[..|hosts| - 1], ip, zone, now)
  }

  /** Host i lists the IP and no later eligible host does. */
  predicate Serves(hosts: seq<HostInfoResponse>, ip: string, zone: string, now: int, i: nat) {
    && i < |hosts|
    && Lists(hosts[i], ip, zone, now)
    && forall j :: i < j < |hosts| ==> !Lists(hosts[j], ip, zone, now)
  }

  lemma {:induction false} ServedIsScanned(hosts: seq<HostInfoResponse>, ip: string, zone: string, now: int, i: nat)
    requires Serves(hosts, ip, zone, now, i)
    ensures Scan(hosts, ip, zone, now) == Some(InfoOf(hosts[i]))
    decreases |hosts|
  {
    var n := |hosts| - 1;
    if i < n {
      assert !Lists(hosts[n], ip, zone, now);
      ServedIsScanned(hosts[..n], ip, zone, now, i);
    }
  }

  predicate NoneLists(hosts: seq<HostInfoResponse>, ip: string, zone: string, now: int) {
    forall j :: 0 <= j < |hosts| ==> !Lists(hosts[j], ip, zone, now)
  }

  lemma ServesNext(before: seq<HostInfoResponse>, last: HostInfoResponse, ip: string, zone: string, now: int, i: nat)
    requires i < |before|
    ensures Serves(before + [last], ip, zone, now, i) <==>
      Serves(before, ip, zone, now, i) && !Lists(last, ip, zone, now)
  {
    var all := before + [last];
    assert all[|before|] == last;
    forall j | 0 <= j < |before| ensures all[j] == before[j] {
    }
  }

  /** The scan finds the last eligible host listing the IP, and fails only when there is none. */
  lemma {:induction false} ScanMeaning(
      hosts: seq<HostInfoResponse>, ip: string, zone: string, now: int) returns (i: nat)
    ensures Scan(hosts, ip, zone, now).Some? ==>
      Serves(hosts, ip, zone, now, i) && Scan(hosts, ip, zone, now) == Some(InfoOf(hosts[i]))
    ensures Scan(hosts, ip, zone, now).None? <==> NoneLists(hosts, ip, zone, now)
    decreases |hosts|
  {
    i := 0;
    if hosts != [] {
      var n := |hosts| - 1;
      if Lists(hosts[n], ip, zone, now) {
        i := n;
      } else {
        var before := hosts[..n];
        i := ScanMeaning(before, ip, zone, now);
        assert hosts == before + [hosts[n]];
        if Scan(before, ip, zone, now).Some? {
          ServesNext(before, hosts[n], ip, zone, now, i);
          assert Lists(hosts[i], ip, zone, now);
        } else {
          forall j | 0 <= j < |hosts| ensures !Lists(hosts[j], ip, zone, now) {
            assert j < n ==> hosts[j] == before[j];
          }
        }
      }
    }
  }

  function Lookup(cache: map<string, HostInfo>, ip: string): Option<HostInfo> {
    if ip in cache then Some(cache[ip]) else None
  }

  /** The cache answers every lookup as a scan of the response would. */
  ghost predicate Refines(cache: map<string, HostInfo>, hosts: seq<HostInfoResponse>, zone: string, now: int) {
    forall ip :: Lookup(cache, ip) == Scan(hosts, ip, zone, now)
  }

  /** after answers with info for the given IPs and as before for all others. */
  ghost predicate Overlaid(
      before: map<string, HostInfo>, after: map<string, HostInfo>, ips: seq<string>, info: HostInfo)
  {
    forall ip :: Lookup(after, ip) == (if ip in ips then Some(info) else Lookup(before, ip))
  }

  lemma RefinesNext(before: map<string, HostInfo>, hosts: seq<HostInfoResponse>, zone: string, now: int,
                    host: HostInfoResponse, after: map<string, HostInfo>)
    requires Refines(before, hosts, zone, now)
    requires if Eligible(host, zone, now) then Overlaid(before, after, host.ipAddresses, InfoOf(host))
             else after == before
    ensures Refines(after, hosts + [host], zone, now)
  {
    assert (hosts + [host])[..|hosts|] == hosts;
  }

  class DynatraceClient {
    const networkZone: string
    var hostCache: map<string, HostInfo>
    /** The response the cache was filled from and when, and how many requests were sent. */
    ghost var loaded: seq<HostInfoResponse>
    ghost var loadedAt: int
    ghost var requests: nat

    constructor (networkZone: string)
      ensures Valid() && this.networkZone == networkZone && hostCache == map[] && requests == 0
    {
      this.networkZone := networkZone;
      hostCache, loaded, loadedAt, requests := map[], [], 0, 0;
    }

    ghost predicate Valid()
      reads this
    {
      Refines(hostCache, loaded, networkZone, loadedAt)
    }

    /** Every address of a host is entered, replacing what an earlier host may have left there. */
    method EnterHost(ips: seq<string>, info: HostInfo)
      modifies this`hostCache
      ensures Overlaid(old(hostCache), hostCache, ips, info)
    {
      ghost var before := hostCache;
      for k := 0 to |ips|
        invariant Overlaid(before, hostCache, ips[..k], info)
      {
        assert ips[..k + 1] == ips[..k] + [ips[k]];
        hostCache := hostCache[ips[k] := info];
      }
      assert ips[..|ips|] == ips;
    }

    /** A malformed response leaves the cache empty: it is replaced before the response is parsed. */
    method SetHostCacheFromResponse(response: Response, now: int) returns (ok: bool)
      requires !response.Unreachable?
      modifies this`hostCache, this`loaded, this`loadedAt
      ensures Valid() && loadedAt == now
      ensures ok == response.Hosts?
      ensures loaded == if ok then response.hosts else []
      ensures !ok ==> hostCache == map[]
    {
      hostCache, loaded, loadedAt := map[], [], now;
      if response.Malformed? {
        return false;
      }
      var hosts := response.hosts;
      for n := 0 to |hosts|
        invariant loaded == hosts[..n] && loadedAt == now
        invariant Valid()
      {
        var info := hosts[n];
        ghost var before := hostCache;
        loaded := hosts[..n + 1];
        assert loaded == hosts[..n] + [info];
        if !SeenRecently(info, now) {
          RefinesNext(before, hosts[..n], networkZone, now, info, hostCache);
          continue;
        }
        var nz := info.networkZoneID;
        if (networkZone != "" && nz == networkZone) || (networkZone == "" && (nz == "default" || nz == "")) {
          var version := "";
          if info.agentVersion.Some? {
            version := Versions.Print(info.agentVersion.value);
          }
          var hostInfo := HostInfo(version, info.entityID);
          EnterHost(info.ipAddresses, hostInfo);
        }
        RefinesNext(before, hosts[..n], networkZone, now, info, hostCache);
      }
      assert hosts[..|hosts|] == hosts;
      return true;
    }

    method BuildHostCache(response: Response, now: int) returns (ok: bool)
      requires Valid()
      modifies this
      ensures Valid()
      ensures requests == old(requests) + 1
      ensures ok == response.Hosts?
      ensures ok ==> loaded == response.hosts && loadedAt == now
      ensures response.Malformed? ==> hostCache == map[]
      ensures response.Unreachable? ==>
        hostCache == old(hostCache) && loaded == old(loaded) && loadedAt == old(loadedAt)
    {
      requests := requests + 1;
      if response.Unreachable? {
        return false;
      }
      ok := SetHostCacheFromResponse(response, now);
    }

    /** What a lookup leaves behind: a full cache as it was, an empty one as the one request it takes fills it. */
    twostate predicate LookedUp(response: Response, now: int)
      reads this
    {
      if old(hostCache) != map[] then
        && hostCache == old(hostCache) && loaded == old(loaded) && loadedAt == old(loadedAt)
        && requests == old(requests)
      else
        && requests == old(requests) + 1
        && if response.Hosts? then loaded == response.hosts && loadedAt == now else hostCache == map[]
    }

    /** response is what the server would answer if it is asked, which happens only while the cache is empty. */
    method GetHostInfoForIP(ip: string, response: Response, now: int) returns (r: Result<HostInfo, LookupError>)
      requires Valid()
      modifies this
      ensures Valid() && LookedUp(response, now)
      ensures r == LookupAnswer(old(hostCache) == map[], response, loaded, ip, networkZone, loadedAt)
    {
      if |hostCache| == 0 {
        var ok := BuildHostCache(response, now);
        if !ok {
          return Err(BuildFailed);
        }
      }
      assert Lookup(hostCache, ip) == Scan(loaded, ip, networkZone, loadedAt);
      if ip !in hostCache {
        return Err(HostNotFound);
      }
      return Ok(hostCache[ip]);
    }

    method GetAgentVersionForIP(ip: string, response: Response, now: int) returns (r: Result<string, LookupError>)
      requires Valid()
      modifies this
      ensures Valid()
      ensures if ip == "" then Unasked() else LookedUp(response, now)
      ensures r == VersionAnswerOf(old(hostCache) == map[], response, loaded, ip, networkZone, loadedAt)
    {
      if |ip| == 0 {
        return Err(InvalidIP);
      }
      var info := GetHostInfoForIP(ip, response, now);
      if info.Err? {
        return Err(info.error);
      }
      if info.value.version == "" {
        return Err(NotSet);
      }
      return Ok(info.value.version);
    }

    method GetEntityIDForIP(ip: string, response: Response, now: int) returns (r: Result<string, LookupError>)
      requires Valid()
      modifies this
      ensures Valid()
      ensures if ip == "" then Unasked() else LookedUp(response, now)
      ensures r == EntityAnswerOf(old(hostCache) == map[], response, loaded, ip, networkZone, loadedAt)
    {
      if |ip| == 0 {
        return Err(InvalidIP);
      }
      var info := GetHostInfoForIP(ip, response, now);
      if info.Err? {
        return Err(info.error);
      }
      if info.value.entityID == "" {
        return Err(NotSet);
      }
      return Ok(info.value.entityID);
    }

    twostate predicate Unasked()
      reads this
    {
      hostCache == old(hostCache) && loaded == old(loaded) && loadedAt == old(loadedAt) && requests == old(requests)
    }
  }

  /** A lookup is the scan of what is loaded, unless loading was due and failed. */
  function LookupAnswer(
      cold: bool, response: Response, loaded: seq<HostInfoResponse>, ip: string, zone: string, loadedAt: int)
    : Result<HostInfo, LookupError>
  {
    if cold && !response.Hosts? then Err(BuildFailed)
    else match Scan(loaded, ip, zone, loadedAt)
      case Some(info) => Ok(info)
      case None => Err(HostNotFound)
  }

  function VersionAnswerOf(
      cold: bool, response: Response, loaded: seq<HostInfoResponse>, ip: string, zone: string, loadedAt: int)
    : Result<string, LookupError>
  {
    if ip == "" then Err(InvalidIP)
    else match LookupAnswer(cold, response, loaded, ip, zone, loadedAt)
      case Ok(info) => if info.version == "" then Err(NotSet) else Ok(info.version)
      case Err(e) => Err(e)
  }

  function EntityAnswerOf(
      cold: bool, response: Response, loaded: seq<HostInfoResponse>, ip: string, zone: string, loadedAt: int)
    : Result<string, LookupError>
  {
    if ip == "" then Err(InvalidIP)
    else match LookupAnswer(cold, response, loaded, ip, zone, loadedAt)
      case Ok(info) => if info.entityID == "" then Err(NotSet) else Ok(info.entityID)
      case Err(e) => Err(e)
  }

  /** A version is reported exactly when the host serving the IP has one; "not set" means it runs no agent. */
  lemma ReportedVersionMeaning(hosts: seq<HostInfoResponse>, ip: string, zone: string, now: int, i: nat)
    requires ip != "" && Serves(hosts, ip, zone, now, i)
    ensures var answer := VersionAnswerOf(true, Hosts(hosts), hosts, ip, zone, now);
      && (hosts[i].agentVersion.None? <==> answer == Err(NotSet))
      && (hosts[i].agentVersion.Some? ==> answer == Ok(Versions.Print(hosts[i].agentVersion.value)))
  {
    ServedIsScanned(hosts, ip, zone, now, i);
  }

  /** An entity id is answered exactly when the serving host has one, and it is that host's. */
  lemma ReportedEntityMeaning(hosts: seq<HostInfoResponse>, ip: string, zone: string, now: int, i: nat)
    requires ip != "" && Serves(hosts, ip, zone, now, i)
    ensures EntityAnswerOf(true, Hosts(hosts), hosts, ip, zone, now)
         == if hosts[i].entityID == "" then Err(NotSet) else Ok(hosts[i].entityID)
  {
    ServedIsScanned(hosts, ip, zone, now, i);
  }

  /** What is answered for an IP that no host serves, for none at all, and when the hosts could not be loaded. */
  lemma NothingReported(hosts: seq<HostInfoResponse>, ip: string, zone: string, now: int, response: Response)
    ensures ip == "" ==>
      && VersionAnswerOf(true, response, hosts, ip, zone, now) == Err(InvalidIP)
      && EntityAnswerOf(true, response, hosts, ip, zone, now) == Err(InvalidIP)
    ensures ip != "" && !response.Hosts? ==>
      && VersionAnswerOf(true, response, hosts, ip, zone, now) == Err(BuildFailed)
      && EntityAnswerOf(true, response, hosts, ip, zone, now) == Err(BuildFailed)
    ensures ip != "" && NoneLists(hosts, ip, zone, now) ==>
      && VersionAnswerOf(false, response, hosts, ip, zone, now) == Err(HostNotFound)
      && EntityAnswerOf(false, response, hosts, ip, zone, now) == Err(HostNotFound)
  {
    var _ := ScanMeaning(hosts, ip, zone, now);
  }

  /**
   * Which hosts count, in whole numbers: those whose last-seen second, truncated, is at most 30 minutes back and which
   * are in the configured zone, or without one in the default zone or in none.
   */
  lemma EligibleMeaning(host: HostInfoResponse, zone: string, now: int)
    requires host.lastSeenTimestamp >= 0
    ensures Eligible(host, zone, now) <==>
            && (host.lastSeenTimestamp - host.lastSeenTimestamp % 1000) * 1_000_000 + 30 * 60 * 1_000_000_000 >= now
            && (host.networkZoneID == zone || (zone == "" && host.networkZoneID == "default"))
  {
  }

  /** What the pod search sees of an answer that is not a rate limit. */
  function ToSearch(answer: Result<string, LookupError>): AgentUpdate.VersionAnswer {
    match answer
    case Ok(version) => AgentUpdate.Reported(version)
    case Err(_) => AgentUpdate.Unavailable
  }

  predicate RunsOlder(
      hosts: seq<HostInfoResponse>, ip: string, zone: string, now: int, latest: Versions.AgentVersion, i: nat)
  {
    Serves(hosts, ip, zone, now, i) && hosts[i].agentVersion.Some? && hosts[i].agentVersion.value.Before(latest)
  }

  /**
   * From the response to the restart decision: a pod's agent counts as outdated exactly when the last
   * eligible host listing the pod's node has a version whose numbers precede those of the latest one.
   */
  lemma OutdatedMeansOlderAgent(
      hosts: seq<HostInfoResponse>, ip: string, zone: string, now: int, latest: Versions.AgentVersion)
    requires latest.Valid()
    requires forall h :: h in hosts && h.agentVersion.Some? ==> h.agentVersion.value.Valid()
    ensures AgentUpdate.IsOutdated(ToSearch(VersionAnswerOf(true, Hosts(hosts), hosts, ip, zone, now)),
      Versions.Print(latest))
      <==> ip != "" && (exists i: nat :: RunsOlder(hosts, ip, zone, now, latest, i))
  {
    var n := ScanMeaning(hosts, ip, zone, now);
    forall i: nat | Serves(hosts, ip, zone, now, i) && hosts[i].agentVersion.Some?
      ensures Scan(hosts, ip, zone, now) == Some(InfoOf(hosts[i]))
      ensures Versions.Compare(Versions.Print(hosts[i].agentVersion.value), Versions.Print(latest)).Newer?
          <==> hosts[i].agentVersion.value.Before(latest)
    {
      ServedIsScanned(hosts, ip, zone, now, i);
      assert hosts[i] in hosts;
      Versions.PrintedOrder(hosts[i].agentVersion.value, latest);
    }
    if Scan(hosts, ip, zone, now).Some? {
      assert Serves(hosts, ip, zone, now, n);
      assert RunsOlder(hosts, ip, zone, now, latest, n) <==>
        hosts[n].agentVersion.Some? && hosts[n].agentVersion.value.Before(latest);
    }
  }
}
