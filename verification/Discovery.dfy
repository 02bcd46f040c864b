/** The discovery pipeline from the collaborators' results to a report: merge the sources, mint the
    evidence, normalize the devices, build the topology. */
module Discovery {
  import opened Sorting
  import opened Text
  import opened TopologyModel
  import opened TopologyGraph
  import opened ReportValidator
  import opened TopologyBuilder
  import opened BuildValidity
  import opened Normalization
  import opened Links
  import opened Options

  datatype HostHit = HostHit(ip: string, alive: bool, openPorts: seq<int>)

  datatype ARPEntry = ARPEntry(ip: string, mac: string)

  /** What the collaborators return; a failed or absent one returns None. The sweeps only run on
      scopes with hosts to sweep. */
  datatype Probes = Probes(sweepable: bool, hits: seq<HostHit>, arpSweep: seq<ARPEntry>,
                           arpTable: Option<seq<ARPEntry>>, nmap: Option<seq<ScannedHost>>)

  /** Library answers about addresses, ports and names. */
  datatype Oracle = Oracle(inScope: string -> bool, inSubnet: string -> bool, lookup: string -> string,
                           serviceName: int -> string, ipv4: string -> Option<nat>)

  datatype RunInput = RunInput(agentIP: string, agentMAC: string, gatewayIP: string, probes: Probes, chain: seq<string>)

  // ---- merging the sources ----

  function Get<V>(m: map<string, V>, k: string, default: V): V {
    if k in m then m[k] else default
  }

  /** Which source found which address. */
  ghost function Pairs(sources: map<string, seq<Source>>): set<(string, Source)> {
    set ip, s | ip in sources && s in sources[ip] :: (ip, s)
  }

  ghost function FoundBy(ips: set<string>, s: Source): set<(string, Source)> {
    set ip | ip in ips && ip != "" :: (ip, s)
  }

  /** Every listed address has a source, and lists each source once. */
  ghost predicate Listed(sources: map<string, seq<Source>>) {
    forall ip | ip in sources :: ip != "" && sources[ip] != [] && Distinct(sources[ip])
  }

  class SweepResult {
    var hits: seq<HostHit>
    var macs: map<string, string>
    var scanned: seq<ScannedHost>
    var sources: map<string, seq<Source>>

    constructor ()
      ensures hits == [] && macs == map[] && scanned == [] && sources == map[]
    {
      hits, macs, scanned, sources := [], map[], [], map[];
    }

    method AddSource(ip: string, src: Source)
      requires Listed(sources)
      modifies this`sources
      ensures Listed(sources)
      ensures Pairs(sources) == old(Pairs(sources)) + FoundBy({ip}, src)
      ensures sources == if ip == "" || src in Get(old(sources), ip, []) then old(sources)
                         else old(sources)[ip := Get(old(sources), ip, []) + [src]]
    {
      if ip == "" {
        return;
      }
      if src in Get(sources, ip, []) {
        return;
      }
      ghost var before := sources;
      sources := sources[ip := Get(sources, ip, []) + [src]];
      assert sources[ip] == Get(before, ip, []) + [src];
      forall p ensures p in Pairs(sources) <==> p in Pairs(before) || p == (ip, src) {
        assert p in Pairs(sources) <==> p.0 in sources && p.1 in sources[p.0];
        assert p in Pairs(before) <==> p.0 in before && p.1 in before[p.0];
      }
    }
  }

  function HitIPs(hits: seq<HostHit>): set<string> {
    set i | 0 <= i < |hits| :: hits[i].ip
  }

  function ARPIPs(es: seq<ARPEntry>, inScope: string -> bool): set<string> {
    set i | 0 <= i < |es| && inScope(es[i].ip) :: es[i].ip
  }

  function ScannedIPs(hs: seq<ScannedHost>, inScope: string -> bool): set<string> {
    set i | 0 <= i < |hs| && inScope(hs[i].ip) :: hs[i].ip
  }

  /** The last swept answer wins ... */
  function SweptMACs(es: seq<ARPEntry>, inScope: string -> bool): map<string, string> {
    if es == [] then map[]
    else
      var m, e := SweptMACs(es[..|es| - 1], inScope), es[|es| - 1];
      if inScope(e.ip) then m[e.ip := e.mac] else m
  }

  /** ... and the neighbour table only fills what is still empty. */
  function FilledMACs(m: map<string, string>, es: seq<ARPEntry>, inScope: string -> bool): map<string, string> {
    if es == [] then m
    else
      var f, e := FilledMACs(m, es[..|es| - 1], inScope), es[|es| - 1];
      if inScope(e.ip) && Get(f, e.ip, "") == "" then f[e.ip := e.mac] else f
  }

  function InScopeHosts(hs: seq<ScannedHost>, inScope: string -> bool): seq<ScannedHost> {
    if hs == [] then []
    else InScopeHosts(hs[..|hs| - 1], inScope) + (if inScope(hs[|hs| - 1].ip) then [hs[|hs| - 1]] else [])
  }

  function Swept(p: Probes): seq<ARPEntry> {
    if p.sweepable then p.arpSweep else []
  }

  function Hits(p: Probes): seq<HostHit> {
    if p.sweepable then p.hits else []
  }

  function Table(p: Probes): seq<ARPEntry> {
    if p.arpTable.Some? then p.arpTable.value else []
  }

  function Scans(p: Probes): seq<ScannedHost> {
    if p.nmap.Some? then p.nmap.value else []
  }

  function MACTable(p: Probes, o: Oracle): map<string, string> {
    FilledMACs(SweptMACs(Swept(p), o.inScope), Table(p), o.inScope)
  }

  ghost function Discovered(p: Probes, o: Oracle): set<(string, Source)> {
    FoundBy(HitIPs(Hits(p)), TCP) + FoundBy(ARPIPs(Swept(p), o.inScope), ARPSweep)
    + FoundBy(ARPIPs(Table(p), o.inScope), ARPTable) + FoundBy(ScannedIPs(Scans(p), o.inScope), Nmap)
  }

  method AddHits(res: SweepResult, hits: seq<HostHit>)
    requires Listed(res.sources)
    modifies res`sources
    ensures Listed(res.sources)
    ensures Pairs(res.sources) == old(Pairs(res.sources)) + FoundBy(HitIPs(hits), TCP)
  {
    for i := 0 to |hits|
      invariant Listed(res.sources)
      invariant Pairs(res.sources) == old(Pairs(res.sources)) + FoundBy(HitIPs(hits[..i]), TCP)
    {
      assert HitIPs(hits[..i + 1]) == HitIPs(hits[..i]) + {hits[i].ip};
      res.AddSource(hits[i].ip, TCP);
    }
    assert hits[..|hits|] == hits;
  }

  method AddSwept(res: SweepResult, es: seq<ARPEntry>, inScope: string -> bool)
    requires Listed(res.sources) && res.macs == map[]
    modifies res`sources, res`macs
    ensures Listed(res.sources) && res.macs == SweptMACs(es, inScope)
    ensures Pairs(res.sources) == old(Pairs(res.sources)) + FoundBy(ARPIPs(es, inScope), ARPSweep)
  {
    for i := 0 to |es|
      invariant Listed(res.sources) && res.macs == SweptMACs(es[..i], inScope)
      invariant Pairs(res.sources) == old(Pairs(res.sources)) + FoundBy(ARPIPs(es[..i], inScope), ARPSweep)
    {
      assert es[..i + 1][..i] == es[..i];
      assert ARPIPs(es[..i + 1], inScope) == ARPIPs(es[..i], inScope) + if inScope(es[i].ip) then {es[i].ip} else {};
      if !inScope(es[i].ip) {
        continue;
      }
      res.macs := res.macs[es[i].ip := es[i].mac];
      res.AddSource(es[i].ip, ARPSweep);
    }
    assert es[..|es|] == es;
  }

  method AddTable(res: SweepResult, es: seq<ARPEntry>, inScope: string -> bool)
    requires Listed(res.sources)
    modifies res`sources, res`macs
    ensures Listed(res.sources) && res.macs == FilledMACs(old(res.macs), es, inScope)
    ensures Pairs(res.sources) == old(Pairs(res.sources)) + FoundBy(ARPIPs(es, inScope), ARPTable)
  {
    for i := 0 to |es|
      invariant Listed(res.sources) && res.macs == FilledMACs(old(res.macs), es[..i], inScope)
      invariant Pairs(res.sources) == old(Pairs(res.sources)) + FoundBy(ARPIPs(es[..i], inScope), ARPTable)
    {
      assert es[..i + 1][..i] == es[..i];
      assert ARPIPs(es[..i + 1], inScope) == ARPIPs(es[..i], inScope) + if inScope(es[i].ip) then {es[i].ip} else {};
      if !inScope(es[i].ip) {
        continue;
      }
      if Get(res.macs, es[i].ip, "") == "" {
        res.macs := res.macs[es[i].ip := es[i].mac];
      }
      res.AddSource(es[i].ip, ARPTable);
    }
    assert es[..|es|] == es;
  }

  lemma ScannedNext(hs: seq<ScannedHost>, i: nat, inScope: string -> bool)
    requires i < |hs|
    ensures ScannedIPs(hs[..i + 1], inScope)
         == ScannedIPs(hs[..i], inScope) + (if inScope(hs[i].ip) then {hs[i].ip} else {})
    ensures InScopeHosts(hs[..i + 1], inScope)
         == InScopeHosts(hs[..i], inScope) + (if inScope(hs[i].ip) then [hs[i]] else [])
  {
    assert hs[..i + 1][..i] == hs[..i];
  }

  method AddScans(res: SweepResult, hs: seq<ScannedHost>, inScope: string -> bool)
    requires Listed(res.sources) && res.scanned == []
    modifies res`sources, res`scanned
    ensures Listed(res.sources) && res.scanned == InScopeHosts(hs, inScope)
    ensures Pairs(res.sources) == old(Pairs(res.sources)) + FoundBy(ScannedIPs(hs, inScope), Nmap)
  {
    for i := 0 to |hs|
      invariant Listed(res.sources) && res.scanned == InScopeHosts(hs[..i], inScope)
      invariant Pairs(res.sources) == old(Pairs(res.sources)) + FoundBy(ScannedIPs(hs[..i], inScope), Nmap)
    {
      ScannedNext(hs, i, inScope);
      if inScope(hs[i].ip) {
        res.scanned := res.scanned + [hs[i]];
        res.AddSource(hs[i].ip, Nmap);
      }
    }
    assert hs[..|hs|] == hs;
  }

  /** A device is found by a source exactly when that source saw it; only the TCP sweep is trusted to
      stay inside the scope by itself. */
  method Discover(p: Probes, o: Oracle) returns (res: SweepResult)
    ensures fresh(res) && Listed(res.sources)
    ensures Pairs(res.sources) == Discovered(p, o)
    ensures res.hits == Hits(p) && res.macs == MACTable(p, o) && res.scanned == InScopeHosts(Scans(p), o.inScope)
  {
    res := new SweepResult();
    if p.sweepable {
      res.hits := p.hits;
      AddHits(res, p.hits);
      AddSwept(res, p.arpSweep, o.inScope);
    }
    if p.arpTable.Some? {
      AddTable(res, p.arpTable.value, o.inScope);
    }
    if p.nmap.Some? {
      AddScans(res, p.nmap.value, o.inScope);
    }
  }

  // ---- from addresses to devices ----

  function LastHit(hits: seq<HostHit>, ip: string): HostHit {
    if hits == [] then HostHit("", false, [])
    else if hits[|hits| - 1].ip == ip then hits[|hits| - 1]
    else LastHit(hits[..|hits| - 1], ip)
  }

  function LastScan(hs: seq<ScannedHost>, ip: string): Option<ScannedHost> {
    if hs == [] then None
    else if hs[|hs| - 1].ip == ip then Some(hs[|hs| - 1])
    else LastScan(hs[..|hs| - 1], ip)
  }

  /** The entry at `i` is the last of its kind for the address: nothing behind it answers for it. */
  ghost predicate LastHitAt(hits: seq<HostHit>, ip: string, i: nat) {
    i < |hits| && hits[i].ip == ip && forall j | i < j < |hits| :: hits[j].ip != ip
  }

  ghost predicate LastScanAt(hs: seq<ScannedHost>, ip: string, i: nat) {
    i < |hs| && hs[i].ip == ip && forall j | i < j < |hs| :: hs[j].ip != ip
  }

  lemma {:induction false} LastHitCounts(hits: seq<HostHit>, ip: string)
    ensures forall i: nat | LastHitAt(hits, ip, i) :: LastHit(hits, ip) == hits[i]
    ensures (forall j | 0 <= j < |hits| :: hits[j].ip != ip) ==> LastHit(hits, ip) == HostHit("", false, [])
  {
    if hits != [] {
      var init := hits[..|hits| - 1];
      LastHitCounts(init, ip);
      assert forall j | 0 <= j < |init| :: init[j] == hits[j];
      forall i: nat | LastHitAt(hits, ip, i) ensures LastHit(hits, ip) == hits[i] {
        assert i < |init| ==> LastHitAt(init, ip, i);
      }
    }
  }

  lemma {:induction false} LastScanCounts(hs: seq<ScannedHost>, ip: string)
    ensures forall i: nat | LastScanAt(hs, ip, i) :: LastScan(hs, ip) == Some(hs[i])
    ensures (forall j | 0 <= j < |hs| :: hs[j].ip != ip) ==> LastScan(hs, ip) == None
  {
    if hs != [] {
      var init := hs[..|hs| - 1];
      LastScanCounts(init, ip);
      assert forall j | 0 <= j < |init| :: init[j] == hs[j];
      forall i: nat | LastScanAt(hs, ip, i) ensures LastScan(hs, ip) == Some(hs[i]) {
        assert i < |init| ==> LastScanAt(init, ip, i);
      }
    }
  }

  lemma {:induction false} InScopeHostsAre(hs: seq<ScannedHost>, inScope: string -> bool, h: ScannedHost)
    ensures h in InScopeHosts(hs, inScope) <==> h in hs && inScope(h.ip)
  {
    if hs != [] {
      InScopeHostsAre(hs[..|hs| - 1], inScope, h);
      assert hs == hs[..|hs| - 1] + [hs[|hs| - 1]];
    }
  }

  // ---- MAC addresses ----

  /** The last in-scope answer for the address, and what follows it. */
  ghost predicate LastAnswer(es: seq<ARPEntry>, ip: string, i: nat) {
    i < |es| && es[i].ip == ip && forall j | i < j < |es| :: es[j].ip != ip
  }

  /** The first answer for the address that names a MAC. */
  ghost predicate FirstNamed(es: seq<ARPEntry>, ip: string, i: nat) {
    i < |es| && es[i].ip == ip && es[i].mac != "" && forall j | 0 <= j < i :: es[j].ip == ip ==> es[j].mac == ""
  }

  lemma {:induction false} SweptLast(es: seq<ARPEntry>, inScope: string -> bool, ip: string)
    ensures forall i: nat | LastAnswer(es, ip, i) && inScope(ip) :: Get(SweptMACs(es, inScope), ip, "") == es[i].mac
    ensures (forall j | 0 <= j < |es| :: es[j].ip != ip) || !inScope(ip) ==> Get(SweptMACs(es, inScope), ip, "") == ""
  {
    if es != [] {
      var init := es[..|es| - 1];
      SweptLast(init, inScope, ip);
      assert forall j | 0 <= j < |init| :: init[j] == es[j];
      forall i: nat | LastAnswer(es, ip, i) && inScope(ip) ensures Get(SweptMACs(es, inScope), ip, "") == es[i].mac {
        assert i < |init| ==> LastAnswer(init, ip, i);
      }
    }
  }

  lemma {:induction false} FilledFirst(m: map<string, string>, es: seq<ARPEntry>, inScope: string -> bool, ip: string)
    ensures Get(m, ip, "") != "" ==> Get(FilledMACs(m, es, inScope), ip, "") == Get(m, ip, "")
    ensures Get(m, ip, "") == "" && inScope(ip) ==>
              forall i: nat | FirstNamed(es, ip, i) :: Get(FilledMACs(m, es, inScope), ip, "") == es[i].mac
    ensures Get(m, ip, "") == ""
            && ((forall j | 0 <= j < |es| :: es[j].ip == ip ==> es[j].mac == "") || !inScope(ip)) ==>
              Get(FilledMACs(m, es, inScope), ip, "") == ""
  {
    if es != [] {
      var init := es[..|es| - 1];
      FilledFirst(m, init, inScope, ip);
      assert forall j | 0 <= j < |init| :: init[j] == es[j];
      if Get(m, ip, "") == "" && inScope(ip) {
        forall i: nat | FirstNamed(es, ip, i) ensures Get(FilledMACs(m, es, inScope), ip, "") == es[i].mac {
          assert i < |init| ==> FirstNamed(init, ip, i);
        }
      }
    }
  }

  /** The MAC of an in-scope address is that of its last sweep answer; when there is none, or it names none, the
      first the neighbour table names; an address out of scope has none. */
  lemma MACTableMeans(p: Probes, o: Oracle, ip: string)
    ensures var mac := Get(MACTable(p, o), ip, "");
      && (!o.inScope(ip) ==> mac == "")
      && (o.inScope(ip) ==>
            forall i: nat | LastAnswer(Swept(p), ip, i) && Swept(p)[i].mac != "" :: mac == Swept(p)[i].mac)
      && (o.inScope(ip) && (forall i: nat | LastAnswer(Swept(p), ip, i) :: Swept(p)[i].mac == "") ==>
            forall i: nat | FirstNamed(Table(p), ip, i) :: mac == Table(p)[i].mac)
  {
    SweptLast(Swept(p), o.inScope, ip);
    FilledFirst(SweptMACs(Swept(p), o.inScope), Table(p), o.inScope, ip);
    if o.inScope(ip) && (forall i: nat | LastAnswer(Swept(p), ip, i) :: Swept(p)[i].mac == "") {
      UnnamedUnswept(Swept(p), o.inScope, ip);
    }
  }

  lemma UnnamedUnswept(es: seq<ARPEntry>, inScope: string -> bool, ip: string)
    requires inScope(ip) && forall i: nat | LastAnswer(es, ip, i) :: es[i].mac == ""
    ensures Get(SweptMACs(es, inScope), ip, "") == ""
  {
    SweptLast(es, inScope, ip);
    var i := LastIndex(es, ip);
    assert i < |es| ==> LastAnswer(es, ip, i);
  }

  lemma {:induction false} LastIndex(es: seq<ARPEntry>, ip: string) returns (i: nat)
    ensures i <= |es| && (i < |es| ==> LastAnswer(es, ip, i))
    ensures i == |es| ==> forall j | 0 <= j < |es| :: es[j].ip != ip
  {
    if es == [] {
      i := 0;
    } else if es[|es| - 1].ip == ip {
      i := |es| - 1;
    } else {
      var init := es[..|es| - 1];
      i := LastIndex(init, ip);
      assert forall j | 0 <= j < |init| :: init[j] == es[j];
      if i == |init| {
        i := |es|;
      }
    }
  }

  /** Everything known about one address before it is normalized. */
  datatype Sighting = Sighting(ip: string, hit: HostHit, scan: Option<ScannedHost>, mac: string, isAgent: bool,
                               isGateway: bool)

  /** The sweep's findings, each list searched from its end because the last entry wins. */
  datatype Findings = Findings(hits: seq<HostHit>, macs: map<string, string>, scanned: seq<ScannedHost>)

  function Gathered(p: Probes, o: Oracle): Findings {
    Findings(Hits(p), MACTable(p, o), InScopeHosts(Scans(p), o.inScope))
  }

  function SightIn(f: Findings, input: RunInput, ip: string): Sighting {
    var scan := LastScan(f.scanned, ip);
    var mac := Get(f.macs, ip, "");
    var mac' := if ip == input.agentIP && mac == "" then input.agentMAC else mac;
    Sighting(ip, LastHit(f.hits, ip), scan, if mac' == "" && scan.Some? then scan.value.mac else mac',
             ip == input.agentIP, ip == input.gatewayIP)
  }

  function Sight(input: RunInput, o: Oracle, ip: string): Sighting {
    SightIn(Gathered(input.probes, o), input, ip)
  }

  predicate Alive(s: Sighting) {
    s.hit.alive || s.isAgent || s.isGateway || s.scan.Some?
  }

  function ReachabilityState(isAgent: bool, isGateway: bool, tcpOpen: bool, hasNmap: bool, hasMAC: bool): Reachability {
    if isAgent then Self
    else if isGateway || tcpOpen || hasNmap then Reachable
    else if hasMAC then ArpOnly
    else Unknown
  }

  function TCPKeys(ports: seq<int>): set<(string, int)> {
    set i | 0 <= i < |ports| :: ("tcp", ports[i])
  }

  /** The scanned services a device takes over: those its own TCP services do not cover. */
  function TakenOver(s: Sighting): seq<Service> {
    if s.scan.None? then []
    else Kept(TCPKeys(s.hit.openPorts), s.scan.value.services)
  }

  /** An evidence id that arrived inside a scanned service and stays on the device. */
  ghost predicate CarriedIn(s: Sighting, id: string) {
    exists i | 0 <= i < |TakenOver(s)| :: id in TakenOver(s)[i].evidenceIDs
  }

  ghost predicate CitedByService(d: Device, id: string) {
    exists j | 0 <= j < |d.services| :: id in d.services[j].evidenceIDs
  }

  /** What the report needs of a device made from sighting `s` once `records` is the evidence. */
  ghost predicate Sound(s: Sighting, d: Device, records: seq<Evidence>) {
    && d.id == DevID(s.ip) && d.addresses == [s.ip] && InUnit(d.confidence)
    && (forall id | id in d.evidenceIDs :: id in RecordIDs(records))
    && (forall id | CitedByService(d, id) :: id in RecordIDs(records) || CarriedIn(s, id))
    && (forall id | CarriedIn(s, id) :: CitedByService(d, id))
  }

  lemma SoundLater(s: Sighting, d: Device, a: seq<Evidence>, b: seq<Evidence>)
    requires Sound(s, d, a) && |a| <= |b| && b[..|a|] == a
    ensures Sound(s, d, b)
  {
    RecordIDsGrow(a, b);
  }

  lemma FreshDeviceSound(s: Sighting, d: Device, before: seq<Evidence>, after: seq<Evidence>, extra: seq<string>)
    requires Numbered(after) && |before| <= |after| && after[..|before|] == before
    requires forall id | id in extra :: id in RecordIDs(before)
    requires d.evidenceIDs == SortedSet(extra + IDsOf(after[|before|..]))
    requires forall id | CitedByService(d, id) :: |before| < |after| && id == after[|before|].id
    requires d.id == DevID(s.ip) && d.addresses == [s.ip] && InUnit(d.confidence)
    ensures Sound(s.(scan := None), d, after)
  {
    RecordIDsGrow(before, after);
    forall id | id in d.evidenceIDs ensures id in RecordIDs(after) {
      if id !in extra {
        var i :| 0 <= i < |IDsOf(after[|before|..])| && IDsOf(after[|before|..])[i] == id;
        MintedIDs(after, |before| + i);
      }
    }
    forall id | CitedByService(d, id) ensures id in RecordIDs(after) {
      MintedIDs(after, |before|);
    }
  }

  lemma ServicesOf(services: seq<Service>, parts: seq<Service>, d: Device, id: string)
    requires d.services == services && multiset(services) == multiset(parts)
    ensures CitedByService(d, id) <==> exists j | 0 <= j < |parts| :: id in parts[j].evidenceIDs
  {
    if CitedByService(d, id) {
      var j :| 0 <= j < |services| && id in services[j].evidenceIDs;
      assert services[j] in multiset(parts);
      var k :| 0 <= k < |parts| && parts[k] == services[j];
    }
    if j :| 0 <= j < |parts| && id in parts[j].evidenceIDs {
      assert parts[j] in multiset(services);
      var k :| 0 <= k < |services| && services[k] == parts[j];
    }
  }

  /** The evidence a device's services cite once the taken-over services joined them. */
  lemma CitedAfterScan(own: seq<Service>, taken: seq<Service>, evID: string, d: Device, r: Device, id: string)
    requires d.services == own && multiset(r.services) == multiset(own + Citing(taken, evID))
    ensures CitedByService(r, id) <==>
      CitedByService(d, id) || (taken != [] && id == evID) || exists i | 0 <= i < |taken| :: id in taken[i].evidenceIDs
  {
    var parts := own + Citing(taken, evID);
    ServicesOf(r.services, parts, r, id);
    assert forall j | 0 <= j < |own| :: parts[j] == own[j];
    assert forall i | 0 <= i < |taken| :: parts[|own| + i].evidenceIDs == taken[i].evidenceIDs + [evID];
    if j :| 0 <= j < |parts| && id in parts[j].evidenceIDs && j >= |own| {
      assert parts[|own| + (j - |own|)] == parts[j];
    }
    if taken != [] {
      assert evID in parts[|own| + 0].evidenceIDs;
    }
  }

  lemma ScannedDeviceSound(s: Sighting, d: Device, r: Device, before: seq<Evidence>, after: seq<Evidence>)
    requires s.scan.Some? && Sound(s.(scan := None), d, before)
    requires Numbered(after) && |after| == |before| + 1 && after[..|before|] == before
    requires r.id == d.id && r.addresses == d.addresses && r.confidence == d.confidence
    requires multiset(r.services) == multiset(d.services + Citing(TakenOver(s), after[|before|].id))
    requires r.evidenceIDs == SortedSet(d.evidenceIDs + [after[|before|].id])
    ensures Sound(s, r, after)
  {
    var evID := after[|before|].id;
    RecordIDsGrow(before, after);
    MintedIDs(after, |before|);
    forall id ensures CitedByService(r, id) ==> id in RecordIDs(after) || CarriedIn(s, id)
              ensures CarriedIn(s, id) ==> CitedByService(r, id) {
      CitedAfterScan(d.services, TakenOver(s), evID, d, r, id);
      NothingCarried(s, id);
    }
  }

  lemma NothingCarried(s: Sighting, id: string)
    ensures !CarriedIn(s.(scan := None), id)
  {
  }

  lemma TCPServiceFacts(ports: seq<int>, name: int -> string, evID: string, d: Device)
    requires d.services == TCPServices(ports, name, evID)
    ensures ServiceKeys(d.services) == TCPKeys(ports)
    ensures forall id | CitedByService(d, id) :: id == evID && ports != []
  {
    assert forall i | 0 <= i < |ports| :: d.services[i].port == ports[i] && d.services[i].protocol == "tcp";
  }

  /** The records one address costs. */
  function MintCount(s: Sighting, lookup: string -> string): nat {
    PlainCount(s, lookup) + if s.scan.Some? then 1 else 0
  }

  function PlainCount(s: Sighting, lookup: string -> string): nat {
    (if Alive(s) && s.hit.openPorts != [] then 1 else 0) + (if s.mac != "" then 1 else 0)
    + (if lookup(s.ip) != "" then 1 else 0)
  }

  /** What is proved of a device beforehand: the gateway has a record of its own. */
  function Extra(s: Sighting, gatewayEvID: string): seq<string> {
    if s.isGateway && gatewayEvID != "" then [gatewayEvID] else []
  }

  /** `d` cites what was minted for it after the first `lo` records, besides what is proved beforehand. */
  predicate CitesMinted(s: Sighting, gatewayEvID: string, lo: nat, records: seq<Evidence>, d: Device) {
    lo <= |records| && d.evidenceIDs == SortedSet(Extra(s, gatewayEvID) + IDsOf(records[lo..]))
  }

  lemma IDsNext(a: seq<Evidence>, b: seq<Evidence>, lo: nat)
    requires Extends(a, b, 1) && lo <= |a|
    ensures IDsOf(b[lo..]) == IDsOf(a[lo..]) + [b[|a|].id]
  {
    assert b == a + [b[|a|]];
  }

  lemma OneMoreSorted(x: seq<string>, y: seq<string>, last: string)
    ensures SortedSet(SortedSet(x + y) + [last]) == SortedSet(x + (y + [last]))
  {
    SortedSetCanonical(SortedSet(x + y) + [last], x + (y + [last]));
  }

  lemma OneMoreCited(s: Sighting, gatewayEvID: string, lo: nat, a: seq<Evidence>, b: seq<Evidence>, d: Device,
                     r: Device)
    requires CitesMinted(s, gatewayEvID, lo, a, d) && Extends(a, b, 1)
    requires r.evidenceIDs == SortedSet(d.evidenceIDs + [b[|a|].id])
    ensures CitesMinted(s, gatewayEvID, lo, b, r)
  {
    var x, y, last := Extra(s, gatewayEvID), IDsOf(a[lo..]), b[|a|].id;
    IDsNext(a, b, lo);
    OneMoreSorted(x, y, last);
    assert d.evidenceIDs == SortedSet(x + y);
    assert r.evidenceIDs == SortedSet(x + (y + [last]));
  }

  /** The ids number `lo + 1` to `lo + n`. */
  ghost predicate MintedBetween(id: string, lo: nat, n: nat) {
    exists k: nat :: lo < k <= lo + n && id == EvID(k)
  }

  /** The device cites exactly the `n` records minted for it after the first `lo`, and the gateway its own record. */
  ghost predicate CitesOwn(s: Sighting, gatewayEvID: string, lo: nat, n: nat, d: Device) {
    forall id :: id in d.evidenceIDs <==>
      (s.isGateway && gatewayEvID != "" && id == gatewayEvID) || MintedBetween(id, lo, n)
  }

  lemma MintedListed(records: seq<Evidence>, lo: nat, id: string)
    requires Numbered(records) && lo <= |records|
    ensures id in IDsOf(records[lo..]) <==> MintedBetween(id, lo, |records| - lo)
    ensures MintedBetween(id, lo, |records| - lo) ==> id != ""
  {
    var ids := IDsOf(records[lo..]);
    if MintedBetween(id, lo, |records| - lo) {
      var k: nat :| lo < k <= |records| && id == EvID(k);
      assert ids[k - lo - 1] == records[k - 1].id == id && id[0] == 'e';
    }
    if id in ids {
      var i :| 0 <= i < |ids| && ids[i] == id;
      assert records[lo + i].id == EvID(lo + i + 1);
    }
  }

  lemma MintedIsOwn(s: Sighting, gatewayEvID: string, lo: nat, records: seq<Evidence>, d: Device)
    requires CitesMinted(s, gatewayEvID, lo, records, d) && Numbered(records)
    ensures CitesOwn(s, gatewayEvID, lo, |records| - lo, d)
  {
    forall id
      ensures id in d.evidenceIDs <==>
              (s.isGateway && gatewayEvID != "" && id == gatewayEvID) || MintedBetween(id, lo, |records| - lo)
    {
      MintedListed(records, lo, id);
    }
  }

  /** The part of a device that the address, the sweep, the ARP table and reverse DNS determine. */
  method MakePlainDevice(norm: Normalizer, s: Sighting, gatewayEvID: string) returns (d: Device)
    requires norm.store.Valid()
    requires gatewayEvID != "" ==> gatewayEvID in RecordIDs(norm.store.records)
    modifies norm.store
    ensures norm.store.Valid()
    ensures Extends(old(norm.store.records), norm.store.records, PlainCount(s, norm.lookup))
    ensures Sound(s.(scan := None), d, norm.store.records)
    ensures PlainFacts(norm.lookup, s, d)
    ensures CitesMinted(s, gatewayEvID, |old(norm.store.records)|, norm.store.records, d)
  {
    var extra := Extra(s, gatewayEvID);
    ghost var before := norm.store.records;
    d := norm.Device(s.ip, Alive(s), s.hit.openPorts, s.mac, s.isAgent, s.isGateway, extra);
    if Alive(s) && s.hit.openPorts != [] {
      TCPServiceFacts(s.hit.openPorts, norm.serviceName, norm.store.records[|before|].id, d);
    }
    FreshDeviceSound(s, d, before, norm.store.records, extra);
  }

  method TakeOverScan(norm: Normalizer, s: Sighting, plain: Device) returns (d: Device)
    requires norm.store.Valid() && s.scan.Some? && Sound(s.(scan := None), plain, norm.store.records)
    requires plain.services == [] || ServiceKeys(plain.services) == TCPKeys(s.hit.openPorts)
    requires plain.services == [] ==> s.hit.openPorts == []
    modifies norm.store
    ensures norm.store.Valid() && Extends(old(norm.store.records), norm.store.records, 1)
    ensures Sound(s, d, norm.store.records)
    ensures d.isAgent == plain.isAgent && d.isGateway == plain.isGateway && d.confidence == plain.confidence
    ensures ServiceKeys(d.services) == TCPKeys(s.hit.openPorts) + ServiceKeys(s.scan.value.services)
    ensures d.evidenceIDs == SortedSet(plain.evidenceIDs + [norm.store.records[|old(norm.store.records)|].id])
    ensures d.hostname == if plain.hostname == "" then s.scan.value.hostname else plain.hostname
  {
    ghost var before := norm.store.records;
    assert ServiceKeys(plain.services) == TCPKeys(s.hit.openPorts);
    d := norm.AttachNmap(plain, s.scan.value);
    ScannedDeviceSound(s, plain, d, before, norm.store.records);
    KeysAfterScan(plain.services, s.scan.value.services, norm.store.records[|before|].id, d.services);
  }

  /** The name reverse DNS gives, failing that the scan's. */
  function HostnameOf(lookup: string -> string, s: Sighting): string {
    if lookup(s.ip) != "" then lookup(s.ip) else if s.scan.Some? then s.scan.value.hostname else ""
  }

  /** The agent is itself; the gateway, a device with an open port and a scanned one are reachable; of the others those
      with a MAC answered ARP only. */
  lemma ReachabilityMeans(s: Sighting)
    ensures var answers := s.isGateway || (Alive(s) && s.hit.openPorts != []) || s.scan.Some?;
      && (ReachabilityOf(s) == Self <==> s.isAgent)
      && (ReachabilityOf(s) == Reachable <==> !s.isAgent && answers)
      && (ReachabilityOf(s) == ArpOnly <==> !s.isAgent && !answers && s.mac != "")
      && (ReachabilityOf(s) == Unknown <==> !s.isAgent && !answers && s.mac == "")
  {
  }

  /** The MAC of a sighting is the one ARP found, failing that the agent's own at its address, failing that the
      scan's. */
  lemma MACOfSighting(input: RunInput, o: Oracle, ip: string)
    ensures var s, found := Sight(input, o, ip), Get(MACTable(input.probes, o), ip, "");
      && (found != "" ==> s.mac == found)
      && (found == "" && ip == input.agentIP && input.agentMAC != "" ==> s.mac == input.agentMAC)
      && (found == "" && (ip != input.agentIP || input.agentMAC == "") ==>
            s.mac == if s.scan.Some? then s.scan.value.mac else "")
      && (s.isAgent <==> ip == input.agentIP) && (s.isGateway <==> ip == input.gatewayIP) && s.ip == ip
      && (Alive(s) <==> s.hit.alive || s.isAgent || s.isGateway || s.scan.Some?)
  {
  }

  /** The device shows what was seen at its address: its MAC, name and reachability, a confidence for what is known of
      it, and the services found open or scanned. */
  ghost predicate Shows(lookup: string -> string, s: Sighting, d: Device) {
    && d.confidence == DeviceConfidence(s.isAgent, s.isGateway, Alive(s), s.mac != "", lookup(s.ip) != "")
    && ServiceKeys(d.services) == (if Alive(s) then TCPKeys(s.hit.openPorts) else {})
                                + (if s.scan.Some? then ServiceKeys(s.scan.value.services) else {})
    && d.mac == s.mac && d.hostname == HostnameOf(lookup, s) && d.isAgent == s.isAgent && d.isGateway == s.isGateway
    && d.reachability == ReachabilityOf(s)
  }

  function ReachabilityOf(s: Sighting): Reachability {
    ReachabilityState(s.isAgent, s.isGateway, Alive(s) && s.hit.openPorts != [], s.scan.Some?, s.mac != "")
  }

  /** What the sweep and reverse DNS alone establish of an address. */
  ghost predicate PlainFacts(lookup: string -> string, s: Sighting, d: Device) {
    && (d.services == [] <==> !(Alive(s) && s.hit.openPorts != []))
    && (d.services == [] || ServiceKeys(d.services) == TCPKeys(s.hit.openPorts))
    && d.isAgent == s.isAgent && d.isGateway == s.isGateway && d.hostname == lookup(s.ip)
    && d.confidence == DeviceConfidence(s.isAgent, s.isGateway, Alive(s), s.mac != "", lookup(s.ip) != "")
  }

  lemma ShownPlain(lookup: string -> string, s: Sighting, d: Device)
    requires s.scan.None? && PlainFacts(lookup, s, d)
    ensures Shows(lookup, s, d.(mac := s.mac, reachability := ReachabilityOf(s)))
  {
    assert d.services == [] ==> ServiceKeys(d.services) == {};
    assert s.hit.openPorts == [] ==> TCPKeys(s.hit.openPorts) == {};
  }

  lemma ShownScanned(lookup: string -> string, s: Sighting, plain: Device, d: Device)
    requires s.scan.Some? && PlainFacts(lookup, s, plain)
    requires d.isAgent == plain.isAgent && d.isGateway == plain.isGateway && d.confidence == plain.confidence
    requires ServiceKeys(d.services) == TCPKeys(s.hit.openPorts) + ServiceKeys(s.scan.value.services)
    requires d.hostname == if plain.hostname == "" then s.scan.value.hostname else plain.hostname
    ensures Shows(lookup, s, d.(mac := s.mac, reachability := ReachabilityOf(s)))
  {
  }

  /** What both sides know of the address, before the device is labelled with it. */
  method Enrich(norm: Normalizer, s: Sighting, gatewayEvID: string) returns (d: Device)
    requires norm.store.Valid()
    requires gatewayEvID != "" ==> gatewayEvID in RecordIDs(norm.store.records)
    modifies norm.store
    ensures norm.store.Valid()
    ensures Extends(old(norm.store.records), norm.store.records, MintCount(s, norm.lookup))
    ensures Sound(s, d, norm.store.records)
    ensures CitesMinted(s, gatewayEvID, |old(norm.store.records)|, norm.store.records, d)
    ensures Shows(norm.lookup, s, d.(mac := s.mac, reachability := ReachabilityOf(s)))
  {
    ghost var before := norm.store.records;
    d := MakePlainDevice(norm, s, gatewayEvID);
    if s.scan.None? {
      assert s.(scan := None) == s;
      ShownPlain(norm.lookup, s, d);
      return;
    }
    ghost var middle, plain := norm.store.records, d;
    d := TakeOverScan(norm, s, d);
    ShownScanned(norm.lookup, s, plain, d);
    ExtendsTransitive(before, middle, norm.store.records, PlainCount(s, norm.lookup), 1);
    OneMoreCited(s, gatewayEvID, |before|, middle, norm.store.records, plain, d);
  }

  /** One address becomes one device, with its MAC, sources and reachability as found. */
  method MakeDevice(norm: Normalizer, s: Sighting, gatewayEvID: string, sources: seq<Source>) returns (d: Device)
    requires norm.store.Valid()
    requires gatewayEvID != "" ==> gatewayEvID in RecordIDs(norm.store.records)
    modifies norm.store
    ensures norm.store.Valid()
    ensures Extends(old(norm.store.records), norm.store.records, MintCount(s, norm.lookup))
    ensures Sound(s, d, norm.store.records)
    ensures d.sources == sources && Shows(norm.lookup, s, d)
    ensures CitesMinted(s, gatewayEvID, |old(norm.store.records)|, norm.store.records, d)
  {
    var seen := Enrich(norm, s, gatewayEvID);
    d := seen.(sources := sources, mac := s.mac, reachability := ReachabilityOf(s));
    SoundDependsOn(s, seen, d, norm.store.records);
  }

  function MintCounts(input: RunInput, o: Oracle, ips: seq<string>): nat {
    if ips == [] then 0
    else MintCounts(input, o, ips[..|ips| - 1]) + MintCount(Sight(input, o, ips[|ips| - 1]), o.lookup)
  }

  lemma MintCountsNext(input: RunInput, o: Oracle, ips: seq<string>, i: nat)
    requires i < |ips|
    ensures MintCounts(input, o, ips[..i + 1]) == MintCounts(input, o, ips[..i])
            + MintCount(Sight(input, o, ips[i]), o.lookup)
  {
    assert ips[..i + 1][..i] == ips[..i];
  }

  // ---- the device list ----

  /** Which source found which address, the agent and the gateway being found by themselves. */
  ghost function Found(input: RunInput, o: Oracle): set<(string, Source)> {
    Discovered(input.probes, o) + FoundBy({input.agentIP}, OwnAddress) + FoundBy({input.gatewayIP}, DefaultRoute)
  }

  ghost function Addresses(input: RunInput, o: Oracle): set<string> {
    set p | p in Found(input, o) :: p.0
  }

  lemma ListedKeys(sources: map<string, seq<Source>>)
    requires Listed(sources)
    ensures sources.Keys == set p | p in Pairs(sources) :: p.0
  {
    forall ip | ip in sources ensures exists p :: p in Pairs(sources) && p.0 == ip {
      assert (ip, sources[ip][0]) in Pairs(sources);
    }
  }

  /** IPv4 addresses by number, anything else by its text. */
  predicate IPLess(ipv4: string -> Option<nat>, a: string, b: string) {
    if ipv4(a).Some? && ipv4(b).Some? then ipv4(a).value < ipv4(b).value else StringLess(a, b)
  }

  /** Only dotted-quad addresses, told apart by their numbers. */
  ghost predicate DottedQuads(ipv4: string -> Option<nat>, ips: set<string>) {
    && (forall a | a in ips :: ipv4(a).Some?)
    && (forall a, b | a in ips && b in ips && ipv4(a) == ipv4(b) :: a == b)
  }

  method OrderAddresses(all: set<string>, ipv4: string -> Option<nat>) returns (ips: seq<string>)
    ensures Distinct(ips) && Elements(ips) == all
    ensures DottedQuads(ipv4, all) ==>
      forall i, j | 0 <= i < j < |ips| ::
          ipv4(ips[i]).Some? && ipv4(ips[j]).Some? && ipv4(ips[i]).value < ipv4(ips[j]).value
  {
    var order := InSomeOrder(all);
    var less := (a, b) => IPLess(ipv4, a, b);
    ips := Sort(less, order);
    SortKeepsElements(less, order);
    SortedDistinct(less, order);
    if DottedQuads(ipv4, all) {
      QuadsTotal(ipv4, all, less);
      SortAscending(less, order);
      QuadsAscend(ipv4, all, less, ips);
    }
  }

  lemma QuadsTotal(ipv4: string -> Option<nat>, all: set<string>, less: (string, string) -> bool)
    requires DottedQuads(ipv4, all) && forall a, b :: less(a, b) == IPLess(ipv4, a, b)
    ensures TotalOn(less, all)
  {
  }

  lemma QuadsAscend(ipv4: string -> Option<nat>, all: set<string>, less: (string, string) -> bool, ips: seq<string>)
    requires DottedQuads(ipv4, all) && (forall a, b :: less(a, b) == IPLess(ipv4, a, b))
    requires Elements(ips) == all && Ascending(less, ips)
    ensures forall i, j | 0 <= i < j < |ips| ::
              ipv4(ips[i]).Some? && ipv4(ips[j]).Some? && ipv4(ips[i]).value < ipv4(ips[j]).value
  {
    forall i, j | 0 <= i < j < |ips|
      ensures ipv4(ips[i]).Some? && ipv4(ips[j]).Some? && ipv4(ips[i]).value < ipv4(ips[j]).value
    {
      assert ips[i] in Elements(ips) && ips[j] in Elements(ips);
      assert less(ips[i], ips[j]);
    }
  }

  lemma SortedDistinct<T>(less: (T, T) -> bool, s: seq<T>)
    requires Distinct(s)
    ensures Distinct(Sort(less, s))
  {
    var r := Sort(less, s);
    DistinctOnce(s);
    forall i, j | 0 <= i < j < |r| ensures r[i] != r[j] {
      if r[i] == r[j] {
        Repeated(r, i, j);
      }
    }
  }

  lemma Repeated<T>(r: seq<T>, i: nat, j: nat)
    requires i < j < |r| && r[i] == r[j]
    ensures multiset(r)[r[i]] >= 2
  {
    assert r == r[..j] + [r[j]] + r[j + 1..];
    assert r[..j][i] == r[i];
  }

  lemma {:induction false} DistinctOnce<T>(s: seq<T>)
    requires Distinct(s)
    ensures forall x :: multiset(s)[x] <= 1
  {
    if s != [] {
      var init, last := s[..|s| - 1], s[|s| - 1];
      DistinctOnce(init);
      assert s == init + [last];
      assert last !in init;
      assert last !in multiset(init);
    }
  }

  /** The devices made so far, in the order of `ips`. */
  ghost predicate Made(input: RunInput, o: Oracle, ips: seq<string>, ds: seq<Device>, records: seq<Evidence>) {
    && |ds| <= |ips|
    && (forall i | 0 <= i < |ds| :: Sound(Sight(input, o, ips[i]), ds[i], records))
    && (forall i | 0 <= i < |ds| :: SourcesOf(input, o, ips[i], ds[i].sources))
    && (forall i | 0 <= i < |ds| :: Shows(o.lookup, Sight(input, o, ips[i]), ds[i]))
  }

  /** Every device cites the records minted for it, in the order of the addresses. */
  ghost predicate AllCiteOwn(input: RunInput, o: Oracle, ips: seq<string>, ds: seq<Device>) {
    |ds| <= |ips| && forall i | 0 <= i < |ds| :: CitesAt(input, o, ips, i, ds[i])
  }

  ghost predicate CitesAt(input: RunInput, o: Oracle, ips: seq<string>, i: nat, d: Device)
    requires i < |ips|
  {
    CitesOwn(Sight(input, o, ips[i]), GatewayRecord(input), OpeningRecords(input) + MintCounts(input, o, ips[..i]),
             MintCount(Sight(input, o, ips[i]), o.lookup), d)
  }

  lemma NextCites(input: RunInput, o: Oracle, ips: seq<string>, i: nat, start: seq<Evidence>, a: seq<Evidence>,
                  b: seq<Evidence>, d: Device)
    requires i < |ips| && |start| == OpeningRecords(input) && Numbered(b)
    requires Extends(start, a, MintCounts(input, o, ips[..i]))
    requires Extends(a, b, MintCount(Sight(input, o, ips[i]), o.lookup))
    requires CitesMinted(Sight(input, o, ips[i]), GatewayRecord(input), |a|, b, d)
    ensures Extends(start, b, MintCounts(input, o, ips[..i + 1])) && CitesAt(input, o, ips, i, d)
  {
    var s := Sight(input, o, ips[i]);
    MintedIsOwn(s, GatewayRecord(input), |a|, b, d);
    MintCountsNext(input, o, ips, i);
    ExtendsTransitive(start, a, b, MintCounts(input, o, ips[..i]), MintCount(s, o.lookup));
  }

  lemma CiteNext(input: RunInput, o: Oracle, ips: seq<string>, ds: seq<Device>, d: Device)
    requires AllCiteOwn(input, o, ips, ds) && |ds| < |ips| && CitesAt(input, o, ips, |ds|, d)
    ensures AllCiteOwn(input, o, ips, ds + [d])
  {
    var next := ds + [d];
    forall i | 0 <= i < |next| ensures CitesAt(input, o, ips, i, next[i]) {
      assert next[i] == if i < |ds| then ds[i] else d;
    }
  }

  lemma CitationsKept(input: RunInput, o: Oracle, ips: seq<string>, ds: seq<Device>, es: seq<Device>)
    requires AllCiteOwn(input, o, ips, ds) && |es| == |ds|
    requires forall i | 0 <= i < |ds| :: es[i].evidenceIDs == ds[i].evidenceIDs
    ensures AllCiteOwn(input, o, ips, es)
  {
    forall i | 0 <= i < |es| ensures CitesAt(input, o, ips, i, es[i]) {
      assert CitesAt(input, o, ips, i, ds[i]);
    }
  }

  function GatewayRecord(input: RunInput): string {
    if input.gatewayIP == "" then "" else EvID(2)
  }

  /** The interface and, when there is one, the gateway are recorded before any device. */
  function OpeningRecords(input: RunInput): nat {
    if input.gatewayIP == "" then 1 else 2
  }

  ghost predicate SourcesOf(input: RunInput, o: Oracle, ip: string, sources: seq<Source>) {
    forall s :: s in sources <==> (ip, s) in Found(input, o)
  }

  lemma MadeNext(input: RunInput, o: Oracle, ips: seq<string>, ds: seq<Device>, d: Device, a: seq<Evidence>,
                 b: seq<Evidence>)
    requires Made(input, o, ips, ds, a) && |ds| < |ips| && |a| <= |b| && b[..|a|] == a
    requires Sound(Sight(input, o, ips[|ds|]), d, b) && SourcesOf(input, o, ips[|ds|], d.sources)
    requires Shows(o.lookup, Sight(input, o, ips[|ds|]), d)
    ensures Made(input, o, ips, ds + [d], b)
  {
    var next := ds + [d];
    forall i | 0 <= i < |next|
      ensures Sound(Sight(input, o, ips[i]), next[i], b) && SourcesOf(input, o, ips[i], next[i].sources)
    {
      if i < |ds| {
        SoundLater(Sight(input, o, ips[i]), ds[i], a, b);
      }
    }
  }

  lemma SourcesListed(input: RunInput, o: Oracle, sources: map<string, seq<Source>>, ip: string)
    requires Pairs(sources) == Found(input, o) && ip in sources
    ensures SourcesOf(input, o, ip, sources[ip])
  {
    assert forall s :: s in sources[ip] <==> (ip, s) in Pairs(sources);
  }

  method BuildDevices(norm: Normalizer, input: RunInput, o: Oracle, gatewayEvID: string, res: SweepResult)
      returns (devices: seq<Device>, ips: seq<string>)
    requires norm.store.Valid() && norm.lookup == o.lookup
    requires gatewayEvID != "" ==> gatewayEvID in RecordIDs(norm.store.records)
    requires Listed(res.sources) && Pairs(res.sources) == Discovered(input.probes, o)
    requires Findings(res.hits, res.macs, res.scanned) == Gathered(input.probes, o)
    requires |norm.store.records| == OpeningRecords(input) && gatewayEvID == GatewayRecord(input)
    modifies norm.store, res
    ensures norm.store.Valid()
    ensures Extends(old(norm.store.records), norm.store.records, MintCounts(input, o, ips))
    ensures Distinct(ips) && Elements(ips) == Addresses(input, o)
    ensures DottedQuads(o.ipv4, Addresses(input, o)) ==>
      forall i, j | 0 <= i < j < |ips| ::
          o.ipv4(ips[i]).Some? && o.ipv4(ips[j]).Some? && o.ipv4(ips[i]).value < o.ipv4(ips[j]).value
    ensures |devices| == |ips| && Made(input, o, ips, devices, norm.store.records) && AllCiteOwn(input, o, ips, devices)
  {
    res.AddSource(input.agentIP, OwnAddress);
    res.AddSource(input.gatewayIP, DefaultRoute);
    var sources := res.sources;
    ListedKeys(sources);
    ips := OrderAddresses(sources.Keys, o.ipv4);
    devices := MakeDevices(norm, input, o, Findings(res.hits, res.macs, res.scanned), gatewayEvID, sources, ips);
  }

  method MakeDevices(norm: Normalizer, input: RunInput, ghost o: Oracle, f: Findings, gatewayEvID: string,
                     sources: map<string, seq<Source>>, ips: seq<string>)
      returns (devices: seq<Device>)
    requires norm.store.Valid() && norm.lookup == o.lookup && f == Gathered(input.probes, o)
    requires gatewayEvID != "" ==> gatewayEvID in RecordIDs(norm.store.records)
    requires Pairs(sources) == Found(input, o) && Elements(ips) == sources.Keys
    requires |norm.store.records| == OpeningRecords(input) && gatewayEvID == GatewayRecord(input)
    modifies norm.store
    ensures norm.store.Valid()
    ensures Extends(old(norm.store.records), norm.store.records, MintCounts(input, o, ips))
    ensures |devices| == |ips| && Made(input, o, ips, devices, norm.store.records) && AllCiteOwn(input, o, ips, devices)
  {
    devices := [];
    ghost var before := norm.store.records;
    for i := 0 to |ips|
      invariant norm.store.Valid() && |devices| == i
      invariant Extends(before, norm.store.records, MintCounts(input, o, ips[..i]))
      invariant Made(input, o, ips, devices, norm.store.records) && AllCiteOwn(input, o, ips, devices)
    {
      assert ips[i] in Elements(ips);
      devices := MakeNext(norm, input, o, f, gatewayEvID, sources[ips[i]], ips, devices, sources, before);
    }
    assert ips[..|ips|] == ips;
  }

  method MakeNext(norm: Normalizer, input: RunInput, ghost o: Oracle, f: Findings, gatewayEvID: string,
                  found: seq<Source>,
                  ips: seq<string>, ds: seq<Device>, ghost sources: map<string, seq<Source>>,
                  ghost start: seq<Evidence>)
      returns (devices: seq<Device>)
    requires norm.store.Valid() && norm.lookup == o.lookup && f == Gathered(input.probes, o)
    requires gatewayEvID != "" ==> gatewayEvID in RecordIDs(start)
    requires |ds| < |ips| && Extends(start, norm.store.records, MintCounts(input, o, ips[..|ds|]))
    requires |ds| < |ips| && Made(input, o, ips, ds, norm.store.records)
    requires Pairs(sources) == Found(input, o) && ips[|ds|] in sources && found == sources[ips[|ds|]]
    requires |start| == OpeningRecords(input) && gatewayEvID == GatewayRecord(input)
    requires AllCiteOwn(input, o, ips, ds)
    modifies norm.store
    ensures norm.store.Valid() && |devices| == |ds| + 1
    ensures Extends(start, norm.store.records, MintCounts(input, o, ips[..|ds| + 1]))
    ensures Made(input, o, ips, devices, norm.store.records) && AllCiteOwn(input, o, ips, devices)
  {
    var ip := ips[|ds|];
    SourcesListed(input, o, sources, ip);
    ghost var before := norm.store.records;
    RecordIDsGrow(start, before);
    var d := MakeDevice(norm, SightIn(f, input, ip), gatewayEvID, found);
    NextCites(input, o, ips, |ds|, start, before, norm.store.records, d);
    CiteNext(input, o, ips, ds, d);
    MadeNext(input, o, ips, ds, d, before, norm.store.records);
    devices := ds + [d];
  }

  // ---- the report ----

  /** Some service a device takes over from the scan carries in an evidence id that is not one of the
      `n` ids the run mints. */
  ghost predicate CarriesForeign(input: RunInput, o: Oracle, n: nat) {
    exists ip, id :: ip in Addresses(input, o) && CarriedIn(Sight(input, o, ip), id) && !MintedWithin(id, n)
  }

  ghost predicate MintedWithin(id: string, n: nat) {
    exists k: nat :: 1 <= k <= n && id == EvID(k)
  }

  lemma RecordIDsAreMinted(records: seq<Evidence>, id: string)
    requires Numbered(records)
    ensures id in RecordIDs(records) <==> MintedWithin(id, |records|)
  {
    if MintedWithin(id, |records|) {
      var k: nat :| 1 <= k <= |records| && id == EvID(k);
      MintedIDs(records, k - 1);
    }
    if id in RecordIDs(records) {
      var i :| 0 <= i < |records| && records[i].id == id;
      assert id == EvID(i + 1);
    }
  }

  /** A report assembled around a device list that covers `ips`. */
  ghost predicate Assembled(input: RunInput, o: Oracle, ips: seq<string>, r: Report) {
    && r.schema == SCHEMA && r.registry == [] && r.topology == None
    && r.summary.deviceCount == |r.devices| && r.summary.edgeCount == |r.edges|
    && r.summary.evidenceCount == |r.evidence|
    && Numbered(r.evidence)
    && Distinct(ips) && Elements(ips) == Addresses(input, o)
    && |r.devices| == |ips| && forall i | 0 <= i < |ips| :: Sound(Sight(input, o, ips[i]), r.devices[i], r.evidence)
  }

  ghost predicate EdgesClean(r: Report) {
    forall p: Problem | p.OfEdge? || p.EdgeEvidence? :: !Defect(r, p)
  }

  lemma DevicesDistinct(input: RunInput, o: Oracle, ips: seq<string>, r: Report, i: nat)
    requires Assembled(input, o, ips, r) && i < |r.devices|
    ensures r.devices[i].id != "" && r.devices[i].id !in DeviceIDs(r.devices[..i])
  {
    assert Sound(Sight(input, o, ips[i]), r.devices[i], r.evidence);
    assert DevID(ips[i])[0] == 'd';
    forall j | 0 <= j < i ensures r.devices[..i][j].id != r.devices[i].id {
      assert Sound(Sight(input, o, ips[j]), r.devices[j], r.evidence);
      if DevID(ips[j]) == DevID(ips[i]) { DevIDInjective(ips[j], ips[i]); }
    }
  }

  lemma EvidenceDistinct(records: seq<Evidence>, i: nat)
    requires Numbered(records) && i < |records|
    ensures records[i].id != "" && records[i].id !in RecordIDs(records[..i])
  {
    assert EvID(i + 1)[0] == 'e';
    forall j | 0 <= j < i ensures records[..i][j].id != records[i].id {
      if records[j].id == records[i].id { NumberedDistinct(records, j, i); }
    }
  }

  /** The only defect left is a service that cites an id nobody minted. */
  lemma OnlyForeignServices(input: RunInput, o: Oracle, ips: seq<string>, r: Report, p: Problem)
    requires Assembled(input, o, ips, r) && EdgesClean(r) && Defect(r, p)
    ensures p.ServiceEvidence? && CarriesForeign(input, o, |r.evidence|)
  {
    if p.OfDevice? {
      DevicesDistinct(input, o, ips, r, p.i);
    } else if p.OfEvidence? {
      EvidenceDistinct(r.evidence, p.i);
    } else if p.ServiceEvidence? {
      var s := Sight(input, o, ips[p.i]);
      assert Sound(s, r.devices[p.i], r.evidence);
      assert CitedByService(r.devices[p.i], p.id);
      assert CarriedIn(s, p.id);
      RecordIDsAreMinted(r.evidence, p.id);
      assert ips[p.i] in Elements(ips);
    }
  }

  lemma ForeignServiceIsDefect(input: RunInput, o: Oracle, ips: seq<string>, r: Report)
    requires Assembled(input, o, ips, r) && CarriesForeign(input, o, |r.evidence|)
    ensures !WellFormed(r)
  {
    var ip, id :| ip in Addresses(input, o) && CarriedIn(Sight(input, o, ip), id) && !MintedWithin(id, |r.evidence|);
    assert ip in Elements(ips);
    var i :| 0 <= i < |ips| && ips[i] == ip;
    assert Sound(Sight(input, o, ip), r.devices[i], r.evidence);
    assert CitedByService(r.devices[i], id);
    var j :| 0 <= j < |r.devices[i].services| && id in r.devices[i].services[j].evidenceIDs;
    RecordIDsAreMinted(r.evidence, id);
    assert RegistryIDs(r.registry) == {};
    assert Defect(r, ServiceEvidence(i, j, id));
  }

  lemma AssembledIsWellFormedExactly(input: RunInput, o: Oracle, ips: seq<string>, r: Report)
    requires Assembled(input, o, ips, r) && EdgesClean(r)
    ensures WellFormed(r) <==> !CarriesForeign(input, o, |r.evidence|)
  {
    if CarriesForeign(input, o, |r.evidence|) {
      ForeignServiceIsDefect(input, o, ips, r);
    } else {
      forall p ensures !Defect(r, p) {
        if Defect(r, p) { OnlyForeignServices(input, o, ips, r, p); }
      }
    }
  }

  lemma RunEdgesClean(build: BuildInput, edges: seq<Edge>, r: Report)
    requires BuiltEdges(build, edges) && r.edges == edges && build.neighbors == []
    requires IDs(r.devices) == IDs(build.devices) && forall d | d in r.devices :: d.id != ""
    requires forall id | id in build.gatewayEvidence :: id in RecordIDs(r.evidence)
    requires forall h, id | h in build.hops && id in h.evidenceIDs :: id in RecordIDs(r.evidence)
    ensures EdgesClean(r)
  {
    BuiltEdgesDefectsExactly(build, edges, r);
  }

  lemma NoNeighborsNoProof(build: BuildInput, edges: seq<Edge>)
    requires BuiltEdges(build, edges) && build.neighbors == []
    ensures forall e | e in edges :: !IsPhysicalEvidenceEdge(e.kind)
  {
    forall e | e in edges ensures !IsPhysicalEvidenceEdge(e.kind) {
      var i :| 0 <= i < |edges| && edges[i] == e;
      var k := BuiltEdgeIsWinner(build, edges, i);
      var o := OfferedOrigin(build, e);
    }
  }

  method Run(input: RunInput, o: Oracle) returns (r: Report, ips: seq<string>)
    ensures Assembled(input, o, ips, r)
    ensures forall i | 0 <= i < |ips| :: SourcesOf(input, o, ips[i], r.devices[i].sources)
    ensures forall i | 0 <= i < |ips| :: Shows(o.lookup, Sight(input, o, ips[i]), r.devices[i])
    ensures |r.evidence| == 1 + (if input.gatewayIP != "" then 1 else 0) + MintCounts(input, o, ips)
            + (if |input.chain| >= 2 then 1 else 0)
    ensures forall i | 0 <= i < |ips| :: r.devices[i].roles == RolesOf(NetOf(input, o), ips[i])
    ensures AllCiteOwn(input, o, ips, r.devices)
    ensures Records(input, r.evidence)
    ensures Drawn(NetOf(input, o), |r.evidence|, r.edges, r.summary.highConfidenceEdges, r.summary.inferredOnly)
    ensures WellFormed(r) <==> !CarriesForeign(input, o, |r.evidence|)
  {
    var store := new EvidenceStore();
    var _ := store.Add("interface", "interface_probe");
    var gatewayEvID := "";
    if input.gatewayIP != "" {
      gatewayEvID := store.Add("gateway_route", "gateway_probe");
      MintedIDs(store.records, 1);
    }
    assert Opened(input, store.records);
    var res := Discover(input.probes, o);
    var norm := new Normalizer(store, o.lookup, o.serviceName);
    ghost var before := store.records;
    var devices;
    devices, ips := BuildDevices(norm, input, o, gatewayEvID, res);
    RecordIDsGrow(before, store.records);
    OpenedKept(input, before, store.records);
    r := AssembleReport(input, o, store, devices, ips, gatewayEvID);
    AssembledIsWellFormedExactly(input, o, ips, r);
  }

  /** What the links of a run depend on. */
  ghost function NetOf(input: RunInput, o: Oracle): Net {
    Net(input.agentIP, input.gatewayIP, input.chain, Addresses(input, o), o.inSubnet)
  }

  /** The first records name the interface and the gateway, ... */
  ghost predicate Opened(input: RunInput, records: seq<Evidence>) {
    && |records| >= 1 && records[0] == Evidence("ev-1", "interface", "interface_probe")
    && (input.gatewayIP != "" ==>
          |records| >= 2 && records[1] == Evidence("ev-2", "gateway_route", "gateway_probe"))
  }

  /** ... and the last one the gateway chain. */
  ghost predicate Records(input: RunInput, records: seq<Evidence>) {
    && Opened(input, records)
    && (|input.chain| >= 2 ==>
          records[|records| - 1] == Evidence(EvID(|records|), "gateway_route", "gateway_chain"))
  }

  lemma OpenedKept(input: RunInput, a: seq<Evidence>, b: seq<Evidence>)
    requires Opened(input, a) && |a| <= |b| && b[..|a|] == a
    ensures Opened(input, b)
  {
    assert b[0] == a[0];
    assert |a| >= 2 ==> b[1] == a[1];
  }

  lemma IDsAre(ips: seq<string>, ids: seq<string>, known: set<string>)
    requires Elements(ips) == known && |ids| == |ips| && forall i | 0 <= i < |ips| :: ids[i] == DevID(ips[i])
    ensures Elements(ids) == set ip | ip in known :: DevID(ip)
  {
    forall i | 0 <= i < |ips| ensures ids[i] in set ip | ip in known :: DevID(ip) {
      assert ips[i] in Elements(ips);
    }
    forall ip | ip in known ensures DevID(ip) in Elements(ids) {
      assert ip in Elements(ips);
      var i :| 0 <= i < |ips| && ips[i] == ip;
      assert ids[i] in ids;
    }
  }

  lemma MadeIDs(input: RunInput, o: Oracle, ips: seq<string>, ds: seq<Device>, records: seq<Evidence>)
    requires Elements(ips) == Addresses(input, o) && |ds| == |ips| && Made(input, o, ips, ds, records)
    ensures Identifies(NetOf(input, o), Elements(IDs(ds)))
  {
    forall i | 0 <= i < |ds| ensures IDs(ds)[i] == DevID(ips[i]) {
      assert Sound(Sight(input, o, ips[i]), ds[i], records);
    }
    IDsAre(ips, IDs(ds), Addresses(input, o));
    EndsFound(input, o);
  }

  lemma EndsFound(input: RunInput, o: Oracle)
    ensures input.agentIP != "" ==> input.agentIP in Addresses(input, o)
    ensures input.gatewayIP != "" ==> input.gatewayIP in Addresses(input, o)
    ensures "" !in Addresses(input, o)
  {
    if input.agentIP != "" {
      assert (input.agentIP, OwnAddress) in Found(input, o);
    }
    if input.gatewayIP != "" {
      assert (input.gatewayIP, DefaultRoute) in Found(input, o);
    }
  }

  lemma PeersAre(input: RunInput, o: Oracle, ips: seq<string>, ds: seq<Device>, records: seq<Evidence>,
                 peers: seq<string>)
    requires Elements(ips) == Addresses(input, o) && |ds| == |ips| && Made(input, o, ips, ds, records)
    requires forall id :: id in peers <==> exists i | 0 <= i < |ds| ::
               ds[i].id == id && IsPeer(ds[i], o.inSubnet, IDOf(input.agentIP), IDOf(input.gatewayIP))
    ensures Neighbours(NetOf(input, o), Elements(peers))
  {
    EndsFound(input, o);
    forall i | 0 <= i < |ds|
      ensures ds[i].id == DevID(ips[i]) && ips[i] in Addresses(input, o)
      ensures IsPeer(ds[i], o.inSubnet, IDOf(input.agentIP), IDOf(input.gatewayIP)) <==>
              o.inSubnet(ips[i]) && ips[i] != input.agentIP && ips[i] != input.gatewayIP
    {
      assert ips[i] in Elements(ips);
      assert ds[i].addresses == [ips[i]] && ds[i].addresses[0] == ips[i];
      RolesAgree(ips[i], input.agentIP);
      RolesAgree(ips[i], input.gatewayIP);
    }
    forall ip | ip in Addresses(input, o) ensures exists i :: 0 <= i < |ips| && ips[i] == ip {
      assert ip in Elements(ips);
    }
  }

  method PeersOf(input: RunInput, o: Oracle, devices: seq<Device>, ghost ips: seq<string>,
                 ghost records: seq<Evidence>)
      returns (peers: seq<string>)
    requires Elements(ips) == Addresses(input, o) && |devices| == |ips| && Made(input, o, ips, devices, records)
    ensures Neighbours(NetOf(input, o), Elements(peers))
  {
    peers := SameSubnetPeers(devices, o.inSubnet, IDOf(input.agentIP), IDOf(input.gatewayIP));
    PeersAre(input, o, ips, devices, records, peers);
  }

  /** The links the evidence supports, as the topology builder takes them. */
  method Link(input: RunInput, ghost net: Net, store: EvidenceStore, devices: seq<Device>, peers: seq<string>,
              gatewayEvID: string)
      returns (build: BuildInput)
    requires store.Valid() && Opened(input, store.records)
    requires gatewayEvID == GatewayRecord(input)
    requires net == Net(input.agentIP, input.gatewayIP, input.chain, net.known, net.inSubnet)
    requires Identifies(net, Elements(IDs(devices))) && Neighbours(net, Elements(peers))
    modifies store
    ensures store.Valid() && Extends(old(store.records), store.records, if |input.chain| >= 2 then 1 else 0)
    ensures build.devices == devices && Describes(net, EvID(|store.records|), build)
    ensures Records(input, store.records)
    ensures forall id | id in build.gatewayEvidence :: id in RecordIDs(store.records)
    ensures forall h, id | h in build.hops && id in h.evidenceIDs :: id in RecordIDs(store.records)
  {
    ghost var before := store.records;
    var hops := BuildRouteHops(store, input.chain, devices);
    HopsCite(input.chain, devices, before, store.records, hops);
    OpenedKept(input, before, store.records);
    if input.gatewayIP != "" {
      MintedIDs(store.records, 1);
    }
    build := BuildInput(IDOf(input.agentIP), IDOf(input.gatewayIP), devices,
                        if gatewayEvID == "" then [] else [gatewayEvID],
                        hops, peers, []);
  }

  /** The edges a run reports and what it says of them in its summary. */
  ghost predicate Drawn(net: Net, n: nat, edges: seq<Edge>, high: int, inferredOnly: bool) {
    && DrawsExactly(net, EvID(n), edges)
    && Distinct(edges) && (forall e | e in edges :: !IsPhysicalEvidenceEdge(e.kind))
    && (inferredOnly <==> forall e | e in edges :: !e.physical)
    && high == |set e | e in edges && e.confidence >= 0.70|
  }

  method Draw(input: RunInput, ghost net: Net, store: EvidenceStore, devices: seq<Device>, peers: seq<string>,
              gatewayEvID: string)
      returns (ghost build: BuildInput, b: BuildResult)
    requires store.Valid() && Opened(input, store.records)
    requires gatewayEvID == GatewayRecord(input)
    requires net == Net(input.agentIP, input.gatewayIP, input.chain, net.known, net.inSubnet)
    requires Identifies(net, Elements(IDs(devices))) && Neighbours(net, Elements(peers))
    modifies store
    ensures store.Valid() && Extends(old(store.records), store.records, if |input.chain| >= 2 then 1 else 0)
    ensures build.devices == devices && Describes(net, EvID(|store.records|), build) && Records(input, store.records)
    ensures |b.devices| == |devices| && forall i | 0 <= i < |devices| :: b.devices[i] == WithRoles(build, devices[i])
    ensures BuiltEdges(build, b.edges)
    ensures Drawn(net, |store.records|, b.edges, b.highConfidenceEdges, b.inferredOnly)
    ensures forall id | id in build.gatewayEvidence :: id in RecordIDs(store.records)
    ensures forall h, id | h in build.hops && id in h.evidenceIDs :: id in RecordIDs(store.records)
  {
    var given := Link(input, net, store, devices, peers, gatewayEvID);
    build := given;
    b := Build(given);
    BuiltIsWhatIsDue(net, EvID(|store.records|), given, b.edges);
    NoNeighborsNoProof(given, b.edges);
    BuiltDistinct(given, b.edges);
    HighCounted(b.edges);
  }

  /** Links, topology and summary around the device list. */
  method AssembleReport(input: RunInput, o: Oracle, store: EvidenceStore, devices: seq<Device>, ips: seq<string>,
                        gatewayEvID: string)
      returns (r: Report)
    requires store.Valid() && Opened(input, store.records) && Distinct(ips) && Elements(ips) == Addresses(input, o)
    requires |devices| == |ips| && Made(input, o, ips, devices, store.records) && AllCiteOwn(input, o, ips, devices)
    requires gatewayEvID == GatewayRecord(input)
    modifies store
    ensures Assembled(input, o, ips, r) && EdgesClean(r)
    ensures forall i | 0 <= i < |ips| :: SourcesOf(input, o, ips[i], r.devices[i].sources)
    ensures forall i | 0 <= i < |ips| :: Shows(o.lookup, Sight(input, o, ips[i]), r.devices[i])
    ensures forall i | 0 <= i < |ips| :: r.devices[i].roles == RolesOf(NetOf(input, o), ips[i])
    ensures AllCiteOwn(input, o, ips, r.devices)
    ensures |r.evidence| == |old(store.records)| + (if |input.chain| >= 2 then 1 else 0) && Records(input, r.evidence)
    ensures Drawn(NetOf(input, o), |r.evidence|, r.edges, r.summary.highConfidenceEdges, r.summary.inferredOnly)
  {
    ghost var before := store.records;
    MadeIDs(input, o, ips, devices, before);
    var peers := PeersOf(input, o, devices, ips, before);
    ghost var build: BuildInput;
    var b;
    build, b := Draw(input, NetOf(input, o), store, devices, peers, gatewayEvID);
    r := Report(SCHEMA, b.devices, b.edges, store.records, [], None,
                Summary(|b.devices|, |b.edges|, |store.records|, b.highConfidenceEdges, b.inferredOnly));
    RolesKeepDevices(input, o, ips, build, b.devices, before, store.records);
    RolesGiven(input, o, ips, build, EvID(|store.records|), b.devices, before);
    DevicesHaveIDs(input, o, ips, r);
    RunEdgesClean(build, b.edges, r);
    CitationsKept(input, o, ips, devices, r.devices);
  }

  lemma RolesGiven(input: RunInput, o: Oracle, ips: seq<string>, build: BuildInput, chainEv: string,
                   roled: seq<Device>, records: seq<Evidence>)
    requires Made(input, o, ips, build.devices, records) && |build.devices| == |ips|
    requires |roled| == |build.devices| && forall i | 0 <= i < |roled| :: roled[i] == WithRoles(build, build.devices[i])
    requires Elements(ips) == Addresses(input, o) && Describes(NetOf(input, o), chainEv, build)
    ensures forall i | 0 <= i < |ips| :: roled[i].roles == RolesOf(NetOf(input, o), ips[i])
  {
    forall i | 0 <= i < |ips| ensures roled[i].roles == RolesOf(NetOf(input, o), ips[i]) {
      assert Sound(Sight(input, o, ips[i]), build.devices[i], records);
      assert ips[i] in Elements(ips);
      RolesMean(NetOf(input, o), chainEv, build, build.devices[i], ips[i]);
    }
  }

  lemma DevicesHaveIDs(input: RunInput, o: Oracle, ips: seq<string>, r: Report)
    requires Assembled(input, o, ips, r)
    ensures forall d | d in r.devices :: d.id != ""
  {
    forall d | d in r.devices ensures d.id != "" {
      var i :| 0 <= i < |r.devices| && r.devices[i] == d;
      DevicesDistinct(input, o, ips, r, i);
    }
  }

  /** Roles change no fact the validator looks at. */
  lemma RolesKeepDevices(input: RunInput, o: Oracle, ips: seq<string>, build: BuildInput, roled: seq<Device>,
                         a: seq<Evidence>, b: seq<Evidence>)
    requires Made(input, o, ips, build.devices, a) && |build.devices| == |ips|
    requires |roled| == |build.devices| && forall i | 0 <= i < |roled| :: roled[i] == WithRoles(build, build.devices[i])
    requires |a| <= |b| && b[..|a|] == a && Elements(ips) == Addresses(input, o)
    requires build.agentID == IDOf(input.agentIP) && build.gatewayID == IDOf(input.gatewayIP)
    ensures IDs(roled) == IDs(build.devices)
    ensures forall i | 0 <= i < |ips| :: Sound(Sight(input, o, ips[i]), roled[i], b)
    ensures forall i | 0 <= i < |ips| :: SourcesOf(input, o, ips[i], roled[i].sources)
    ensures forall i | 0 <= i < |ips| :: Shows(o.lookup, Sight(input, o, ips[i]), roled[i])
  {
    forall i | 0 <= i < |ips| ensures Shows(o.lookup, Sight(input, o, ips[i]), roled[i]) {
      assert Sound(Sight(input, o, ips[i]), build.devices[i], a);
      RolesAgree(ips[i], input.agentIP);
      RolesAgree(ips[i], input.gatewayIP);
      assert ips[i] in Elements(ips);
      FoundIsNamed(input, o, ips[i]);
    }
    forall i | 0 <= i < |ips| ensures Sound(Sight(input, o, ips[i]), roled[i], b) {
      SoundLater(Sight(input, o, ips[i]), build.devices[i], a, b);
      SoundDependsOn(Sight(input, o, ips[i]), build.devices[i], roled[i], b);
    }
  }

  lemma FoundIsNamed(input: RunInput, o: Oracle, ip: string)
    requires ip in Addresses(input, o)
    ensures ip != ""
  {
  }

  lemma SoundDependsOn(s: Sighting, d: Device, e: Device, records: seq<Evidence>)
    requires Sound(s, d, records)
    requires e.id == d.id && e.addresses == d.addresses && e.confidence == d.confidence
    requires e.evidenceIDs == d.evidenceIDs && e.services == d.services
    ensures Sound(s, e, records)
  {
    assert forall id :: CitedByService(e, id) <==> CitedByService(d, id);
  }

  /** The scanned services arrive without evidence ids of their own. */
  predicate ScansBare(p: Probes) {
    forall h, sv | h in Scans(p) && sv in h.services :: sv.evidenceIDs == []
  }

  /** The validator finds nothing to report exactly when no scanned service carries in a foreign id, in
      particular whenever scanned services arrive bare, whatever the sweep, the ARP sources, the scan
      and the gateway delivered. */
  method RunAndValidate(input: RunInput, o: Oracle) returns (r: Report, problems: seq<Problem>)
    ensures problems == [] <==> !CarriesForeign(input, o, |r.evidence|)
    ensures ScansBare(input.probes) ==> problems == []
  {
    var ips;
    r, ips := Run(input, o);
    problems := ValidateReport(r);
    if ScansBare(input.probes) {
      forall ip, id ensures !CarriedIn(Sight(input, o, ip), id) {
        NothingToCarry(input, o, ip, id);
      }
    }
  }

  /** The failing case is real: a run that learns of one host, from a scan whose only service on it
      cites "other". */
  lemma ForeignExample(input: RunInput, o: Oracle, h: ScannedHost, sv: Service, n: nat)
    requires input.probes == Probes(false, [], [], None, Some([h])) && h.ip != "" && o.inScope(h.ip)
    requires h.services == [sv] && sv.evidenceIDs == ["other"]
    ensures CarriesForeign(input, o, n)
  {
    ScannedIsAddress(input, o, h);
    ScannedCarries(input, o, h, sv);
    forall k: nat ensures "other" != EvID(k) { assert EvID(k)[0] == 'e'; }
    assert !MintedWithin("other", n);
  }

  lemma ScannedIsAddress(input: RunInput, o: Oracle, h: ScannedHost)
    requires input.probes.nmap == Some([h]) && h.ip != "" && o.inScope(h.ip)
    ensures h.ip in Addresses(input, o)
  {
    assert [h][0].ip in ScannedIPs([h], o.inScope);
    assert (h.ip, Nmap) in FoundBy(ScannedIPs([h], o.inScope), Nmap);
    assert (h.ip, Nmap) in Found(input, o);
  }

  lemma ScannedCarries(input: RunInput, o: Oracle, h: ScannedHost, sv: Service)
    requires input.probes == Probes(false, [], [], None, Some([h])) && o.inScope(h.ip)
    requires h.services == [sv] && sv.evidenceIDs == ["other"]
    ensures CarriedIn(Sight(input, o, h.ip), "other")
  {
    assert [h][..0] == [];
    assert InScopeHosts([], o.inScope) == [];
    assert InScopeHosts([h], o.inScope) == [h];
    var s := Sight(input, o, h.ip);
    assert s.scan == Some(h) && s.hit.openPorts == [];
    OneKept(TCPKeys(s.hit.openPorts), sv);
    assert TakenOver(s) == [sv] && "other" in TakenOver(s)[0].evidenceIDs;
  }

  lemma OneKept(existing: set<(string, int)>, sv: Service)
    requires existing == {}
    ensures Kept(existing, [sv]) == [sv]
  {
    assert [sv][..0] == [];
    assert ServiceKeys([]) == {};
    assert Kept(existing, []) == [];
  }

  lemma NothingToCarry(input: RunInput, o: Oracle, ip: string, id: string)
    requires ScansBare(input.probes)
    ensures !CarriedIn(Sight(input, o, ip), id)
  {
    var hosts := InScopeHosts(Scans(input.probes), o.inScope);
    var s := Sight(input, o, ip);
    if s.scan.Some? {
      LastScanListed(hosts, ip);
      InScopeHostsListed(Scans(input.probes), o.inScope, s.scan.value);
      forall i | 0 <= i < |TakenOver(s)| ensures TakenOver(s)[i].evidenceIDs == [] {
        KeptListed(TCPKeys(s.hit.openPorts), s.scan.value.services, TakenOver(s)[i]);
      }
    }
  }

  lemma {:induction false} LastScanListed(hs: seq<ScannedHost>, ip: string)
    ensures LastScan(hs, ip).Some? ==> LastScan(hs, ip).value in hs
  {
    if hs != [] { LastScanListed(hs[..|hs| - 1], ip); }
  }

  lemma {:induction false} InScopeHostsListed(hs: seq<ScannedHost>, inScope: string -> bool, h: ScannedHost)
    ensures h in InScopeHosts(hs, inScope) ==> h in hs
  {
    if hs != [] { InScopeHostsListed(hs[..|hs| - 1], inScope, h); }
  }

  lemma {:induction false} KeptListed(existing: set<(string, int)>, ss: seq<Service>, s: Service)
    ensures s in Kept(existing, ss) ==> s in ss
  {
    if ss != [] { KeptListed(existing, ss[..|ss| - 1], s); }
  }
}
