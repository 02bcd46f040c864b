/** Turning raw observations of one address into a device, minting a record for every fact. */
module Normalization {
  import opened Sorting
  import opened Text
  import opened TopologyModel
  import opened TopologyGraph

  datatype ScannedHost = ScannedHost(ip: string, mac: string, hostname: string, services: seq<Service>)

  function DevID(ip: string): string {
    "dev-" + ip
  }

  lemma DevIDInjective(a: string, b: string)
    requires DevID(a) == DevID(b)
    ensures a == b
  {
    assert DevID(a)[4..] == a && DevID(b)[4..] == b;
  }

  // ---- evidence minted in one go ----

  datatype Fact = TcpConnect | ArpTable | ReverseDNS | NmapScan

  function FactKind(f: Fact): string {
    match f
    case TcpConnect => "tcp_connect"
    case ArpTable => "arp_table"
    case ReverseDNS => "reverse_dns"
    case NmapScan => "nmap"
  }

  function FactSource(f: Fact): string {
    match f
    case TcpConnect => "tcp_sweep"
    case ArpTable => "arp_table"
    case ReverseDNS => "reverse_dns"
    case NmapScan => "nmap"
  }

  /** `after` is `before` with one record for each of `facts` appended. */
  ghost predicate Appended(before: seq<Evidence>, after: seq<Evidence>, facts: seq<Fact>) {
    && |after| == |before| + |facts| && after[..|before|] == before
    && forall i | 0 <= i < |facts| ::
         after[|before| + i].kind == FactKind(facts[i]) && after[|before| + i].source == FactSource(facts[i])
  }

  function IDsOf(records: seq<Evidence>): seq<string> {
    seq(|records|, i requires 0 <= i < |records| => records[i].id)
  }

  function DeviceFacts(tcp: bool, mac: string, host: string): seq<Fact> {
    (if tcp then [TcpConnect] else []) + (if mac != "" then [ArpTable] else [])
        + (if host != "" then [ReverseDNS] else [])
  }

  // ---- devices ----

  function DeviceConfidence(isAgent: bool, isGateway: bool, alive: bool, hasMAC: bool, hasName: bool): real {
    var c := (if isAgent then 0.95 else if isGateway then 0.90 else if alive then 0.70 else 0.50)
           + (if hasMAC then 0.05 else 0.0) + (if hasName then 0.05 else 0.0);
    if c > 1.0 then 1.0 else c
  }

  function TCPServices(ports: seq<int>, name: int -> string, evID: string): seq<Service> {
    seq(|ports|, i requires 0 <= i < |ports| => Service(ports[i], "tcp", name(ports[i]), [evID]))
  }

  /** Protocol and port, what the service key is rendered from. */
  function ServiceKeys(ss: seq<Service>): set<(string, int)> {
    set i | 0 <= i < |ss| :: (ss[i].protocol, ss[i].port)
  }

  /** The scanned services no earlier service already covers. */
  function Kept(existing: set<(string, int)>, ss: seq<Service>): seq<Service> {
    if ss == [] then []
    else
      var init, s := ss[..|ss| - 1], ss[|ss| - 1];
      Kept(existing, init) + (if (s.protocol, s.port) in existing + ServiceKeys(init) then [] else [s])
  }

  function Citing(ss: seq<Service>, evID: string): seq<Service> {
    seq(|ss|, i requires 0 <= i < |ss| => ss[i].(evidenceIDs := ss[i].evidenceIDs + [evID]))
  }

  predicate ServiceLess(a: Service, b: Service) {
    a.port < b.port || (a.port == b.port && StringLess(a.protocol, b.protocol))
  }

  lemma ServiceOrder()
    ensures WeakOrder(ServiceLess)
  {
    forall a, b ensures !(ServiceLess(a, b) && ServiceLess(b, a)) { StringLessAsymmetric(a.protocol, b.protocol); }
    forall a, b, c | !ServiceLess(b, a) && !ServiceLess(c, b) ensures !ServiceLess(c, a) {
      if a.port == b.port == c.port {
        StringsTotal({a.protocol, b.protocol, c.protocol});
      }
    }
  }

  class Normalizer {
    const store: EvidenceStore
    const lookup: string -> string
    const serviceName: int -> string

    constructor (store: EvidenceStore, lookup: string -> string, serviceName: int -> string)
      ensures this.store == store && this.lookup == lookup && this.serviceName == serviceName
    {
      this.store, this.lookup, this.serviceName := store, lookup, serviceName;
    }

    /** A device cites what was minted for it and what the caller proved, nothing else; each TCP
        service cites the connect record. */
    method Device(ip: string, alive: bool, openPorts: seq<int>, mac: string, isAgent: bool, isGateway: bool,
                  extra: seq<string>)
        returns (d: Device)
      requires store.Valid()
      modifies store
      ensures store.Valid()
      ensures Appended(old(store.records), store.records, DeviceFacts(alive && openPorts != [], mac, lookup(ip)))
      ensures d.evidenceIDs == SortedSet(extra + IDsOf(store.records[old(|store.records|)..]))
      ensures d.services ==
              if alive && openPorts != []
              then TCPServices(openPorts, serviceName, store.records[old(|store.records|)].id)
              else []
      ensures d.id == DevID(ip) && d.addresses == [ip] && d.hostname == lookup(ip)
      ensures d.interfaces == if mac != "" then [mac] else []
      ensures d.isAgent == isAgent && d.isGateway == isGateway
      ensures d.confidence == DeviceConfidence(isAgent, isGateway, alive, mac != "", lookup(ip) != "")
    {
      var evIDs, services, host := Gather(ip, alive && |openPorts| > 0, openPorts, mac, extra);
      d := Dev(DevID(ip), host, "", isAgent, isGateway, [], [ip], if mac != "" then [mac] else [], services, Unknown,
               [],
               DeviceConfidence(isAgent, isGateway, alive, mac != "", host != ""), SortedSet(evIDs));
    }

    /** `evIDs` is `extra` and the ids of the records for `facts`, minted since `before`. */
    ghost predicate Minting(before: seq<Evidence>, facts: seq<Fact>, extra: seq<string>, evIDs: seq<string>)
      reads store
    {
      && store.Valid() && Appended(before, store.records, facts)
      && evIDs == extra + IDsOf(store.records[|before|..])
    }

    method Mint(f: Fact, evIDs: seq<string>, ghost before: seq<Evidence>, ghost facts: seq<Fact>,
                ghost extra: seq<string>)
        returns (evID: string, ids: seq<string>)
      requires Minting(before, facts, extra, evIDs)
      modifies store
      ensures Minting(before, facts + [f], extra, ids)
      ensures store.records == old(store.records) + [Evidence(evID, FactKind(f), FactSource(f))]
    {
      evID := store.Add(FactKind(f), FactSource(f));
      ids := evIDs + [evID];
      assert IDsOf(store.records[|before|..]) == IDsOf(old(store.records)[|before|..]) + [evID];
    }

    method Gather(ip: string, tcp: bool, openPorts: seq<int>, mac: string, extra: seq<string>)
        returns (evIDs: seq<string>, services: seq<Service>, host: string)
      requires store.Valid()
      modifies store
      ensures host == lookup(ip)
      ensures Minting(old(store.records), DeviceFacts(tcp, mac, host), extra, evIDs)
      ensures services == if tcp then TCPServices(openPorts, serviceName, store.records[old(|store.records|)].id)
              else []
    {
      ghost var before := store.records;
      evIDs, services := extra, [];
      ghost var facts: seq<Fact> := [];
      if tcp {
        var evID;
        evID, evIDs := Mint(TcpConnect, evIDs, before, facts, extra);
        facts := facts + [TcpConnect];
        services := TCPServices(openPorts, serviceName, evID);
      }
      assert facts == if tcp then [TcpConnect] else [];
      ghost var first := store.records;
      if mac != "" {
        var _, ids := Mint(ArpTable, evIDs, before, facts, extra);
        evIDs := ids;
        facts := facts + [ArpTable];
      }
      assert facts == (if tcp then [TcpConnect] else []) + (if mac != "" then [ArpTable] else []);
      host := lookup(ip);
      if host != "" {
        var _, ids := Mint(ReverseDNS, evIDs, before, facts, extra);
        evIDs := ids;
        facts := facts + [ReverseDNS];
      }
      assert facts == DeviceFacts(tcp, mac, host);
      assert tcp ==> store.records[|before|] == first[|before|];
    }

    /** One record for the scan; every service it adds cites that record besides what it carried in. */
    method AttachNmap(d: Device, s: ScannedHost) returns (r: Device)
      requires store.Valid()
      modifies store
      ensures store.Valid() && Appended(old(store.records), store.records, [NmapScan])
      ensures multiset(r.services)
           == multiset(d.services + Citing(Kept(ServiceKeys(d.services), s.services),
                                           store.records[old(|store.records|)].id))
      ensures Ordered(ServiceLess, r.services)
      ensures r.evidenceIDs == SortedSet(d.evidenceIDs + [store.records[old(|store.records|)].id])
      ensures r.hostname == if d.hostname == "" then s.hostname else d.hostname
      ensures r == d.(services := r.services, evidenceIDs := r.evidenceIDs, hostname := r.hostname)
    {
      var evID := store.Add(FactKind(NmapScan), FactSource(NmapScan));
      var services := MergeServices(d.services, s.services, evID);
      var hostname := d.hostname;
      if hostname == "" && s.hostname != "" {
        hostname := s.hostname;
      }
      r := d.(services := services, evidenceIDs := SortedSet(d.evidenceIDs + [evID]), hostname := hostname);
    }
  }

  method MergeServices(own: seq<Service>, scanned: seq<Service>, evID: string) returns (out: seq<Service>)
    ensures multiset(out) == multiset(own + Citing(Kept(ServiceKeys(own), scanned), evID))
    ensures Ordered(ServiceLess, out)
  {
    var existing := ServiceKeys(own);
    var services := own;
    for i := 0 to |scanned|
      invariant existing == ServiceKeys(own) + ServiceKeys(scanned[..i])
      invariant services == own + Citing(Kept(ServiceKeys(own), scanned[..i]), evID)
    {
      var sv := scanned[i];
      KeptNext(ServiceKeys(own), scanned, i, evID);
      if (sv.protocol, sv.port) in existing {
        continue;
      }
      existing := existing + {(sv.protocol, sv.port)};
      services := services + [sv.(evidenceIDs := sv.evidenceIDs + [evID])];
    }
    assert scanned[..|scanned|] == scanned;
    ServiceOrder();
    SortOrdered(ServiceLess, services);
    out := Sort(ServiceLess, services);
  }

  lemma KeptNext(existing: set<(string, int)>, ss: seq<Service>, i: nat, evID: string)
    requires i < |ss|
    ensures ServiceKeys(ss[..i + 1]) == ServiceKeys(ss[..i]) + {(ss[i].protocol, ss[i].port)}
    ensures Citing(Kept(existing, ss[..i + 1]), evID)
         == Citing(Kept(existing, ss[..i]), evID)
          + if (ss[i].protocol, ss[i].port) in existing + ServiceKeys(ss[..i]) then []
              else [ss[i].(evidenceIDs := ss[i].evidenceIDs + [evID])]
  {
    assert ss[..i + 1][..i] == ss[..i];
    assert ss[..i + 1] == ss[..i] + [ss[i]];
  }

  lemma {:induction false} KeptKeys(existing: set<(string, int)>, ss: seq<Service>)
    ensures existing + ServiceKeys(Kept(existing, ss)) == existing + ServiceKeys(ss)
  {
    if ss != [] {
      var init, s := ss[..|ss| - 1], ss[|ss| - 1];
      KeptKeys(existing, init);
      KeysOfConcat(init, [s]);
      assert ss == init + [s];
      assert ServiceKeys([s]) == {(s.protocol, s.port)} by { assert [s][0] == s; }
      KeysOfConcat(Kept(existing, init), if (s.protocol, s.port) in existing + ServiceKeys(init) then [] else [s]);
      assert ServiceKeys([]) == {};
    }
  }

  lemma KeysOfConcat(a: seq<Service>, b: seq<Service>)
    ensures ServiceKeys(a + b) == ServiceKeys(a) + ServiceKeys(b)
  {
    var s := a + b;
    forall i | 0 <= i < |a| ensures (a[i].protocol, a[i].port) in ServiceKeys(s) { assert s[i] == a[i]; }
    forall i | 0 <= i < |b| ensures (b[i].protocol, b[i].port) in ServiceKeys(s) { assert s[|a| + i] == b[i]; }
  }

  lemma KeysOfSame(a: seq<Service>, b: seq<Service>)
    requires multiset(a) == multiset(b)
    ensures ServiceKeys(a) == ServiceKeys(b)
  {
    forall i | 0 <= i < |a| ensures a[i] in b { assert a[i] in multiset(b); }
    forall i | 0 <= i < |b| ensures b[i] in a { assert b[i] in multiset(a); }
  }

  /** Taking over a scan leaves the services of both sides, by protocol and port. */
  lemma KeysAfterScan(own: seq<Service>, scanned: seq<Service>, evID: string, out: seq<Service>)
    requires multiset(out) == multiset(own + Citing(Kept(ServiceKeys(own), scanned), evID))
    ensures ServiceKeys(out) == ServiceKeys(own) + ServiceKeys(scanned)
  {
    var taken := Kept(ServiceKeys(own), scanned);
    KeysOfSame(out, own + Citing(taken, evID));
    KeysOfConcat(own, Citing(taken, evID));
    assert ServiceKeys(Citing(taken, evID)) == ServiceKeys(taken) by {
      assert forall i | 0 <= i < |taken| ::
          Citing(taken, evID)[i].port == taken[i].port && Citing(taken, evID)[i].protocol == taken[i].protocol;
    }
    KeptKeys(ServiceKeys(own), scanned);
  }

  /** The agent is trusted 0.95, the gateway 0.90, an answering device 0.70 and a silent one 0.50; a MAC and a name
      add 0.05 each, up to certainty. */
  lemma ConfidenceTable(alive: bool, hasMAC: bool, hasName: bool)
    ensures DeviceConfidence(true, true, alive, false, false) == DeviceConfidence(true, false, alive, false, false)
         == 0.95
    ensures DeviceConfidence(false, true, alive, false, false) == 0.90
    ensures DeviceConfidence(false, false, true, false, false) == 0.70
    ensures DeviceConfidence(false, false, false, false, false) == 0.50
    ensures forall agent, gateway ::
              var c := DeviceConfidence(agent, gateway, alive, false, false);
              && DeviceConfidence(agent, gateway, alive, true, false) == c + 0.05
              && DeviceConfidence(agent, gateway, alive, false, true) == c + 0.05
              && DeviceConfidence(agent, gateway, alive, true, true) == (if agent then 1.0 else c + 0.10)
  {
  }

  /** What is minted for a device: a record of the TCP sweep when a port is open, of the ARP table when a MAC is
      known, of reverse DNS when it has a name, in that order. */
  lemma FactsInOrder(tcp: bool, mac: string, host: string, before: seq<Evidence>, after: seq<Evidence>, i: nat)
    requires Appended(before, after, DeviceFacts(tcp, mac, host)) && |before| <= i < |after|
    ensures |after| - |before|
         == (if tcp then 1 else 0) + (if mac != "" then 1 else 0) + (if host != "" then 1 else 0)
    ensures after[i].kind == "tcp_connect" <==> tcp && i == |before|
    ensures after[i].kind == "reverse_dns" <==> host != "" && i == |after| - 1
    ensures after[i].kind in {"tcp_connect", "arp_table", "reverse_dns"}
    ensures after[i].source == if after[i].kind == "tcp_connect" then "tcp_sweep" else after[i].kind
  {
    var facts := DeviceFacts(tcp, mac, host);
    assert after[|before| + (i - |before|)] == after[i];
    assert FactKind(facts[i - |before|]) == after[i].kind;
    assert "tcp_connect"[0] == 't' && "arp_table"[0] == 'a' && "reverse_dns"[0] == 'r';
  }

  /** Ordered services ascend by port, those of one port by protocol. */
  lemma OrderedByPort(ss: seq<Service>, i: nat, j: nat)
    requires Ordered(ServiceLess, ss) && i < j < |ss|
    ensures ss[i].port <= ss[j].port
    ensures ss[i].port == ss[j].port ==> !StringLess(ss[j].protocol, ss[i].protocol)
  {
    assert !ServiceLess(ss[j], ss[i]);
  }
}
