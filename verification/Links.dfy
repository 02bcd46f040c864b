/** The links between the devices of a run: which edges the report gets, told from the default route, the
    gateway chain and the subnet. */
module Links {
  import opened Sorting
  import opened Text
  import opened TopologyModel
  import opened TopologyGraph
  import opened ReportValidator
  import opened TopologyBuilder
  import opened BuildValidity
  import opened Normalization

  // ---- records ----

  lemma RecordIDsGrow(a: seq<Evidence>, b: seq<Evidence>)
    requires |a| <= |b| && b[..|a|] == a
    ensures RecordIDs(a) <= RecordIDs(b)
  {
    forall id | id in RecordIDs(a) ensures id in RecordIDs(b) {
      var i :| 0 <= i < |a| && a[i].id == id && id != "";
      assert b[i].id == id;
    }
  }

  lemma MintedIDs(records: seq<Evidence>, i: nat)
    requires Numbered(records) && i < |records|
    ensures records[i].id in RecordIDs(records)
  {
    assert records[i].id == EvID(i + 1) && EvID(i + 1)[0] == 'e';
  }

  /** `after` keeps what `before` recorded and adds `k` records. */
  ghost predicate Extends(before: seq<Evidence>, after: seq<Evidence>, k: nat) {
    |after| == |before| + k && after[..|before|] == before
  }

  lemma ExtendsTransitive(a: seq<Evidence>, b: seq<Evidence>, c: seq<Evidence>, j: nat, k: nat)
    requires Extends(a, b, j) && Extends(b, c, k)
    ensures Extends(a, c, j + k)
  {
    assert c[..|a|] == c[..|b|][..|a|];
  }

  // ---- what the topology builder is given ----

  predicate IsPeer(d: Device, inSubnet: string -> bool, agentID: string, gatewayID: string) {
    d.id != agentID && d.id != gatewayID && exists i | 0 <= i < |d.addresses| :: inSubnet(d.addresses[i])
  }

  method SameSubnetPeers(ds: seq<Device>, inSubnet: string -> bool, agentID: string, gatewayID: string)
      returns (peers: seq<string>)
    ensures forall id :: id in peers <==> exists i | 0 <= i < |ds| ::
              ds[i].id == id && IsPeer(ds[i], inSubnet, agentID, gatewayID)
  {
    peers := [];
    for i := 0 to |ds|
      invariant forall id :: id in peers <==> exists k | 0 <= k < i ::
                  ds[k].id == id && IsPeer(ds[k], inSubnet, agentID, gatewayID)
    {
      if IsPeer(ds[i], inSubnet, agentID, gatewayID) {
        peers := peers + [ds[i].id];
      }
    }
  }

  /** Consecutive hops of the gateway chain between known devices, each citing the chain's record. */
  function ChainHops(chain: seq<string>, known: set<string>, evID: string): seq<Hop> {
    if |chain| < 2 then []
    else
      var a, b := DevID(chain[0]), DevID(chain[1]);
      (if a in known && b in known then [Hop(a, b, [evID])] else []) + ChainHops(chain[1..], known, evID)
  }

  lemma {:induction false} ChainHopsCite(chain: seq<string>, known: set<string>, evID: string)
    ensures forall h | h in ChainHops(chain, known, evID) :: h.evidenceIDs == [evID]
  {
    if |chain| >= 2 { ChainHopsCite(chain[1..], known, evID); }
  }

  lemma ChainHopsNext(chain: seq<string>, i: nat, known: set<string>, evID: string)
    requires i + 1 < |chain|
    ensures ChainHops(chain[i..], known, evID)
         == (if DevID(chain[i]) in known && DevID(chain[i + 1]) in known
             then [Hop(DevID(chain[i]), DevID(chain[i + 1]), [evID])] else [])
            + ChainHops(chain[i + 1..], known, evID)
  {
    assert chain[i..][1..] == chain[i + 1..];
  }

  method ListHops(chain: seq<string>, known: set<string>, evID: string) returns (hops: seq<Hop>)
    requires |chain| >= 2
    ensures hops == ChainHops(chain, known, evID)
  {
    hops := [];
    assert chain[0..] == chain;
    for i := 0 to |chain| - 1
      invariant hops + ChainHops(chain[i..], known, evID) == ChainHops(chain, known, evID)
    {
      var from, to := DevID(chain[i]), DevID(chain[i + 1]);
      ChainHopsNext(chain, i, known, evID);
      if from !in known || to !in known {
        assert [] + ChainHops(chain[i + 1..], known, evID) == ChainHops(chain[i + 1..], known, evID);
        continue;
      }
      hops := hops + [Hop(from, to, [evID])];
    }
    assert ChainHops(chain[|chain| - 1..], known, evID) == [];
  }

  method BuildRouteHops(store: EvidenceStore, chain: seq<string>, ds: seq<Device>) returns (hops: seq<Hop>)
    requires store.Valid()
    modifies store
    ensures store.Valid() && Extends(old(store.records), store.records, if |chain| >= 2 then 1 else 0)
    ensures |chain| < 2 ==> hops == []
    ensures |chain| >= 2 ==> hops == ChainHops(chain, Elements(IDs(ds)), store.records[old(|store.records|)].id)
    ensures |chain| >= 2 ==> store.records[old(|store.records|)]
                             == Evidence(EvID(old(|store.records|) + 1), "gateway_route", "gateway_chain")
  {
    hops := [];
    if |chain| < 2 {
      return;
    }
    var evID := store.Add("gateway_route", "gateway_chain");
    hops := ListHops(chain, Elements(IDs(ds)), evID);
  }

  function IDOf(ip: string): string {
    if ip != "" then DevID(ip) else ""
  }

  lemma HopsCite(chain: seq<string>, ds: seq<Device>, before: seq<Evidence>, after: seq<Evidence>, hops: seq<Hop>)
    requires Numbered(after) && Extends(before, after, if |chain| >= 2 then 1 else 0)
    requires hops == if |chain| >= 2 then ChainHops(chain, Elements(IDs(ds)), after[|before|].id) else []
    ensures forall h, id | h in hops && id in h.evidenceIDs :: id in RecordIDs(after)
  {
    if |chain| >= 2 {
      MintedIDs(after, |before|);
      ChainHopsCite(chain, Elements(IDs(ds)), after[|before|].id);
    }
  }

  // ---- which links are due ----

  /** What the links of a run depend on: the two ends of the default route, the gateway chain, the addresses found and
      the agent's own subnet. */
  datatype Net = Net(agentIP: string, gatewayIP: string, chain: seq<string>, known: set<string>,
                     inSubnet: string -> bool)

  /** The route goes from the agent to its gateway. */
  ghost predicate OnRoute(net: Net, a: string, b: string) {
    a == net.agentIP && b == net.gatewayIP && a != "" && b != "" && a != b
  }

  /** Two known addresses follow each other in the gateway chain. */
  ghost predicate Follows(net: Net, a: string, b: string) {
    && a in net.known && b in net.known
    && exists i | 0 <= i < |net.chain| - 1 :: net.chain[i] == a && net.chain[i + 1] == b
  }

  /** `a` is the gateway, or the agent when there is no gateway, and `b` any other known address of the subnet. */
  ghost predicate OnSubnet(net: Net, a: string, b: string) {
    a == Center(net) && a != "" && b in net.known && net.inSubnet(b) && b != net.agentIP && b != net.gatewayIP
  }

  function Center(net: Net): string {
    if net.gatewayIP != "" then net.gatewayIP else net.agentIP
  }

  /** The three kinds of edge in full; the record "ev-2" is the gateway's. */
  function RouteLink(a: string, b: string): Edge {
    Edge("edge-dev-" + a + "--dev-" + b + "--gw", "dev-" + a, "dev-" + b, GatewayDefault, "L3", "default_gateway",
         false, true, 0.30, Low, "route_table", "dotted", ["ev-2"], GATEWAY_REASON)
  }

  function ChainLink(a: string, b: string, chainEv: string): Edge {
    Edge("edge-dev-" + a + "--dev-" + b + "--route", "dev-" + a, "dev-" + b, RouteHop, "L3", "traceroute_hop",
         false, false, 0.60, Medium, "traceroute", "dashed", [chainEv], HOP_REASON)
  }

  function SubnetLink(a: string, b: string): Edge {
    Edge("edge-dev-" + a + "--dev-" + b + "--l2", "dev-" + a, "dev-" + b, InferredL2, "L2", "same_subnet",
         false, true, 0.40, Low, "same_subnet_arp_ping", "dotted", [], PEER_REASON)
  }

  /** The edge due from `a` to `b`; `chainEv` is the record of the gateway chain. */
  ghost predicate Due(net: Net, chainEv: string, a: string, b: string, e: Edge) {
    || (OnRoute(net, a, b) && e == RouteLink(a, b))
    || (Follows(net, a, b) && a != b && e == ChainLink(a, b, chainEv))
    || (OnSubnet(net, a, b) && e == SubnetLink(a, b))
  }

  /** The device ids are those of the known addresses, and the ends of the default route are among them. */
  ghost predicate Identifies(net: Net, ids: set<string>) {
    && "" !in net.known && ids == (set ip | ip in net.known :: DevID(ip))
    && (net.agentIP != "" ==> net.agentIP in net.known) && (net.gatewayIP != "" ==> net.gatewayIP in net.known)
  }

  /** The peers are the other known addresses of the subnet. */
  ghost predicate Neighbours(net: Net, peers: set<string>) {
    peers == set ip | ip in net.known && net.inSubnet(ip) && ip != net.agentIP && ip != net.gatewayIP :: DevID(ip)
  }

  /** `build` is what the topology builder is to be given. */
  ghost predicate Describes(net: Net, chainEv: string, build: BuildInput) {
    && Identifies(net, Elements(IDs(build.devices))) && Neighbours(net, Elements(build.peers))
    && build.neighbors == [] && build.agentID == IDOf(net.agentIP) && build.gatewayID == IDOf(net.gatewayIP)
    && build.gatewayEvidence == (if net.gatewayIP == "" then [] else [EvID(2)])
    && build.hops == ChainHops(net.chain, Elements(IDs(build.devices)), chainEv)
  }

  // ---- the three kinds of edge as the builder makes them ----

  lemma SortedOne(id: string)
    requires id != ""
    ensures SortedSet([id]) == [id] && SortedSet([]) == []
  {
    assert [id][..0] == [];
    assert FirstSeen([]) == [] && FirstSeen([id]) == [id];
    assert Sort(StringLess, []) == [] && Sort(StringLess, [id]) == Insert(StringLess, id, []);
  }

  lemma IDSpelled(a: string, b: string, k: EdgeType)
    ensures EdgeID(DevID(a), DevID(b), k) == "edge-dev-" + a + "--dev-" + b + "--" + ShortEdgeType(k)
  {
    assert "edge-" + ("dev-" + a) == "edge-dev-" + a;
    assert "edge-dev-" + a + "--" + ("dev-" + b) == "edge-dev-" + a + "--dev-" + b;
  }

  lemma RouteLinkMade(a: string, b: string)
    ensures NewEdge(DevID(a), DevID(b), GatewayDefault, GATEWAY_REASON, 0.0, [EvID(2)]) == RouteLink(a, b)
    ensures RouteLink(a, b).id == EdgeID(DevID(a), DevID(b), GatewayDefault)
  {
    assert EvID(2) == "ev-2";
    SortedOne(EvID(2));
    IDSpelled(a, b, GatewayDefault);
  }

  lemma ChainLinkMade(a: string, b: string, chainEv: string)
    requires chainEv != ""
    ensures HopEdge(Hop(DevID(a), DevID(b), [chainEv])) == ChainLink(a, b, chainEv)
    ensures ChainLink(a, b, chainEv).id == EdgeID(DevID(a), DevID(b), RouteHop)
  {
    SortedOne(chainEv);
    IDSpelled(a, b, RouteHop);
  }

  lemma SubnetLinkMade(a: string, b: string)
    ensures NewEdge(DevID(a), DevID(b), InferredL2, PEER_REASON, 0.0, []) == SubnetLink(a, b)
    ensures SubnetLink(a, b).id == EdgeID(DevID(a), DevID(b), InferredL2)
  {
    SortedOne("x");
    IDSpelled(a, b, InferredL2);
  }

  lemma DueHasID(net: Net, chainEv: string, a: string, b: string, e: Edge)
    requires Due(net, chainEv, a, b, e) && chainEv != ""
    ensures e.id == EdgeID(DevID(a), DevID(b), e.kind) && !e.kind.Other?
  {
    RouteLinkMade(a, b);
    ChainLinkMade(a, b, chainEv);
    SubnetLinkMade(a, b);
  }

  // ---- what is offered is what is due ----

  lemma {:induction false} HopListed(chain: seq<string>, known: set<string>, evID: string, h: Hop) returns (i: int)
    ensures h in ChainHops(chain, known, evID) ==>
              && 0 <= i < |chain| - 1 && h == Hop(DevID(chain[i]), DevID(chain[i + 1]), [evID])
              && h.fromID in known && h.toID in known
  {
    i := 0;
    if |chain| >= 2 && h in ChainHops(chain[1..], known, evID) {
      i := HopListed(chain[1..], known, evID, h);
      assert chain[1..][i] == chain[i + 1] && chain[1..][i + 1] == chain[i + 2];
      i := i + 1;
    }
  }

  lemma {:induction false} HopIncluded(chain: seq<string>, known: set<string>, evID: string, i: nat)
    requires i + 1 < |chain| && DevID(chain[i]) in known && DevID(chain[i + 1]) in known
    ensures Hop(DevID(chain[i]), DevID(chain[i + 1]), [evID]) in ChainHops(chain, known, evID)
  {
    if i > 0 {
      assert chain[1..][i - 1] == chain[i] && chain[1..][i] == chain[i + 1];
      HopIncluded(chain[1..], known, evID, i - 1);
    }
  }

  lemma {:induction false} HopOffered(hs: seq<Hop>, h: Hop)
    requires h in hs
    ensures HopEdge(h) in HopEdges(hs)
  {
    if h != hs[|hs| - 1] {
      HopOffered(hs[..|hs| - 1], h);
    }
  }

  lemma {:induction false} PeerOffered(build: BuildInput, ps: seq<string>, p: string)
    requires p in ps && p != build.agentID && p != build.gatewayID
    ensures NewEdge(Hub(build), p, InferredL2, PEER_REASON, 0.0, []) in PeerEdges(build, ps)
  {
    if p != ps[|ps| - 1] {
      PeerOffered(build, ps[..|ps| - 1], p);
    }
  }

  lemma RolesAgree(ip: string, roleIP: string)
    ensures ip != "" ==> (DevID(ip) == IDOf(roleIP) <==> ip == roleIP)
  {
    assert DevID(ip)[0] == 'd';
    if DevID(ip) == DevID(roleIP) {
      DevIDInjective(ip, roleIP);
    }
  }

  lemma KnownID(net: Net, ids: set<string>, ip: string)
    requires Identifies(net, ids)
    ensures IDOf(ip) in ids <==> ip in net.known
    ensures ip != "" ==> (DevID(ip) in ids <==> ip in net.known)
  {
    if ip in net.known {
      assert DevID(ip) in ids;
    }
    if IDOf(ip) in ids {
      var other :| other in net.known && IDOf(ip) == DevID(other);
      RolesAgree(other, ip);
    }
  }

  lemma RouteIsOffered(net: Net, chainEv: string, build: BuildInput, a: string, b: string)
    requires Describes(net, chainEv, build) && OnRoute(net, a, b)
    ensures RouteLink(a, b) in Offered(build)
  {
    RouteLinkMade(a, b);
    assert RouteLink(a, b) in GatewayEdges(build);
  }

  lemma ChainIsOffered(net: Net, chainEv: string, build: BuildInput, a: string, b: string)
    requires Describes(net, chainEv, build) && Follows(net, a, b) && chainEv != ""
    ensures ChainLink(a, b, chainEv) in Offered(build)
  {
    var ids := Elements(IDs(build.devices));
    var i :| 0 <= i < |net.chain| - 1 && net.chain[i] == a && net.chain[i + 1] == b;
    KnownID(net, ids, a);
    KnownID(net, ids, b);
    HopIncluded(net.chain, ids, chainEv, i);
    HopOffered(build.hops, Hop(DevID(a), DevID(b), [chainEv]));
    ChainLinkMade(a, b, chainEv);
  }

  lemma SubnetIsOffered(net: Net, chainEv: string, build: BuildInput, a: string, b: string)
    requires Describes(net, chainEv, build) && OnSubnet(net, a, b)
    ensures SubnetLink(a, b) in Offered(build)
  {
    RolesAgree(b, net.agentIP);
    RolesAgree(b, net.gatewayIP);
    assert DevID(b) in Elements(build.peers);
    PeerOffered(build, build.peers, DevID(b));
    SubnetLinkMade(a, b);
  }

  lemma DueJoins(net: Net, chainEv: string, ids: set<string>, a: string, b: string, e: Edge)
    requires Identifies(net, ids) && Due(net, chainEv, a, b, e)
    ensures Joins(ids, e) && a in net.known
  {
    KnownID(net, ids, a);
    KnownID(net, ids, b);
    RolesAgree(a, b);
  }

  lemma DueIsOffered(net: Net, chainEv: string, build: BuildInput, a: string, b: string, e: Edge)
    requires Describes(net, chainEv, build) && Due(net, chainEv, a, b, e) && chainEv != ""
    ensures e in Offered(build) && Joins(Elements(IDs(build.devices)), e)
  {
    DueJoins(net, chainEv, Elements(IDs(build.devices)), a, b, e);
    if OnRoute(net, a, b) {
      RouteIsOffered(net, chainEv, build, a, b);
    }
    if Follows(net, a, b) {
      ChainIsOffered(net, chainEv, build, a, b);
    }
    if OnSubnet(net, a, b) {
      SubnetIsOffered(net, chainEv, build, a, b);
    }
  }

  lemma HopIsDue(net: Net, chainEv: string, ids: set<string>, h: Hop) returns (a: string, b: string)
    requires Identifies(net, ids) && h in ChainHops(net.chain, ids, chainEv) && h.fromID != h.toID && chainEv != ""
    ensures Due(net, chainEv, a, b, HopEdge(h))
  {
    var i := HopListed(net.chain, ids, chainEv, h);
    a, b := net.chain[i], net.chain[i + 1];
    var a' :| a' in net.known && DevID(a) == DevID(a');
    var b' :| b' in net.known && DevID(b) == DevID(b');
    DevIDInjective(a, a');
    DevIDInjective(b, b');
    ChainLinkMade(a, b, chainEv);
    assert Follows(net, a, b);
  }

  lemma RouteIsDue(net: Net, build: BuildInput, e: Edge)
    requires build.agentID == IDOf(net.agentIP) && build.gatewayID == IDOf(net.gatewayIP)
    requires build.gatewayEvidence == (if net.gatewayIP == "" then [] else [EvID(2)])
    requires e in GatewayEdges(build) && e.source != e.target
    ensures OnRoute(net, net.agentIP, net.gatewayIP) && e == RouteLink(net.agentIP, net.gatewayIP)
  {
    RouteLinkMade(net.agentIP, net.gatewayIP);
  }

  lemma PeerIsDue(net: Net, chainEv: string, build: BuildInput, p: string, e: Edge) returns (a: string, b: string)
    requires Describes(net, chainEv, build) && p in build.peers && Hub(build) in Elements(IDs(build.devices))
    requires e == NewEdge(Hub(build), p, InferredL2, PEER_REASON, 0.0, [])
    ensures Due(net, chainEv, a, b, e)
  {
    a := Center(net);
    assert p in Elements(build.peers);
    b :| b in net.known && net.inSubnet(b) && b != net.agentIP && b != net.gatewayIP && p == DevID(b);
    assert IDOf(a) == Hub(build);
    KnownID(net, Elements(IDs(build.devices)), a);
    SubnetLinkMade(a, b);
  }

  lemma OfferedIsDue(net: Net, chainEv: string, build: BuildInput, e: Edge) returns (a: string, b: string)
    requires Describes(net, chainEv, build) && e in Offered(build) && Joins(Elements(IDs(build.devices)), e)
    requires chainEv != ""
    ensures Due(net, chainEv, a, b, e)
  {
    var o := OfferedOrigin(build, e);
    match o
    case FromHop(h) => a, b := HopIsDue(net, chainEv, Elements(IDs(build.devices)), h);
    case FromGateway =>
      a, b := net.agentIP, net.gatewayIP;
      RouteIsDue(net, build, e);
    case FromPeer(p) => a, b := PeerIsDue(net, chainEv, build, p, e);
  }

  // ---- what is due is what is stored ----

  /** No device id of a known address can be mistaken for the beginning of another's. */
  ghost predicate ReadApart(known: set<string>) {
    forall a, b | a in known && b in known :: !Confusable(DevID(a), DevID(b))
  }

  lemma DashFollows(a: string, b: string)
    requires Confusable(DevID(a), DevID(b))
    ensures '-' in b
  {
    var s, s' := DevID(a), DevID(b);
    assert |a| < |b| && b[|a|] == s'[|s|];
    assert s'[|s|] == (if s' == s + "-" then (s + "-")[|s|] else (s + "--")[|s|]) == '-';
  }

  /** Addresses without a dash, such as dotted quads, read apart. */
  lemma NoDashesReadApart(known: set<string>)
    requires forall ip | ip in known :: '-' !in ip
    ensures ReadApart(known)
  {
    forall a, b | a in known && b in known ensures !Confusable(DevID(a), DevID(b)) {
      if Confusable(DevID(a), DevID(b)) {
        DashFollows(a, b);
      }
    }
  }

  lemma SameIDSameEdge(net: Net, chainEv: string, a: string, b: string, e: Edge, a': string, b': string, e': Edge)
    requires ReadApart(net.known) && a in net.known && a' in net.known && chainEv != ""
    requires Due(net, chainEv, a, b, e) && Due(net, chainEv, a', b', e') && e.id == e'.id
    ensures e == e'
  {
    DueHasID(net, chainEv, a, b, e);
    DueHasID(net, chainEv, a', b', e');
    SameIDConfuses(DevID(a), DevID(b), e.kind, DevID(a'), DevID(b'), e'.kind);
    DevIDInjective(a, a');
    DevIDInjective(b, b');
  }

  lemma DueIsBuilt(net: Net, chainEv: string, build: BuildInput, edges: seq<Edge>, a: string, b: string, e: Edge)
    requires BuiltEdges(build, edges) && Describes(net, chainEv, build) && ReadApart(net.known) && chainEv != ""
    requires Due(net, chainEv, a, b, e)
    ensures e in edges
  {
    var ids := Elements(IDs(build.devices));
    DueIsOffered(net, chainEv, build, a, b, e);
    var k := WinnerUnder(build, edges, e);
    var w := Offered(build)[k];
    var a', b' := OfferedIsDue(net, chainEv, build, w);
    DueJoins(net, chainEv, ids, a, b, e);
    DueJoins(net, chainEv, ids, a', b', w);
    SameIDSameEdge(net, chainEv, a, b, e, a', b', w);
  }

  /** Of the edges offered under the id of `e` one is stored. */
  lemma WinnerUnder(build: BuildInput, edges: seq<Edge>, e: Edge) returns (k: nat)
    requires BuiltEdges(build, edges) && e in Offered(build) && Joins(Elements(IDs(build.devices)), e)
    ensures k < |Offered(build)| && Joins(Elements(IDs(build.devices)), Offered(build)[k])
    ensures Offered(build)[k].id == e.id && Offered(build)[k] in edges
  {
    var ids := Elements(IDs(build.devices));
    var j :| 0 <= j < |Offered(build)| && Offered(build)[j] == e;
    GraphKeepsFirstMax(ids, Offered(build), e.id);
    k :| FirstMax(ids, Offered(build), e.id, k);
    var i := WinnerIsBuilt(build, edges, k);
  }

  lemma BuiltIsDue(net: Net, chainEv: string, build: BuildInput, edges: seq<Edge>, e: Edge)
      returns (a: string, b: string)
    requires BuiltEdges(build, edges) && Describes(net, chainEv, build) && e in edges && chainEv != ""
    ensures Due(net, chainEv, a, b, e)
  {
    var i :| 0 <= i < |edges| && edges[i] == e;
    var k := BuiltEdgeIsWinner(build, edges, i);
    a, b := OfferedIsDue(net, chainEv, build, e);
  }

  /** The edges are those due and no others; that all are there takes addresses that read apart. */
  ghost predicate DrawsExactly(net: Net, chainEv: string, edges: seq<Edge>) {
    && (forall e | e in edges :: exists a, b :: Due(net, chainEv, a, b, e))
    && (ReadApart(net.known) ==> forall a, b, e | Due(net, chainEv, a, b, e) :: e in edges)
  }

  lemma BuiltIsWhatIsDue(net: Net, chainEv: string, build: BuildInput, edges: seq<Edge>)
    requires BuiltEdges(build, edges) && Describes(net, chainEv, build) && chainEv != ""
    ensures DrawsExactly(net, chainEv, edges)
  {
    forall e | e in edges ensures exists a, b :: Due(net, chainEv, a, b, e) {
      var a, b := BuiltIsDue(net, chainEv, build, edges, e);
    }
    if ReadApart(net.known) {
      forall a, b, e | Due(net, chainEv, a, b, e) ensures e in edges {
        DueIsBuilt(net, chainEv, build, edges, a, b, e);
      }
    }
  }

  /** Agent, gateway and one more host on one subnet, and nothing seen beyond the gateway: the default route and one
      inferred link from the gateway. */
  lemma SmallNetExample(net: Net, chainEv: string, edges: seq<Edge>)
    requires net.agentIP == "192.168.1.10" && net.gatewayIP == "192.168.1.1" && net.chain == []
    requires net.known == {"192.168.1.10", "192.168.1.1", "192.168.1.20"} && net.inSubnet("192.168.1.20")
    requires DrawsExactly(net, chainEv, edges)
    ensures forall e :: e in edges <==>
              e == RouteLink("192.168.1.10", "192.168.1.1") || e == SubnetLink("192.168.1.1", "192.168.1.20")
  {
    NoDashesReadApart(net.known);
    assert "192.168.1.20"[10] == '2';
    assert Due(net, chainEv, "192.168.1.10", "192.168.1.1", RouteLink("192.168.1.10", "192.168.1.1"));
    assert Due(net, chainEv, "192.168.1.1", "192.168.1.20", SubnetLink("192.168.1.1", "192.168.1.20"));
  }

  // ---- roles ----

  /** A hop was seen beyond the address, or it is the gateway and any hop was seen at all. */
  ghost predicate ForwardsFor(net: Net, ip: string) {
    (exists b :: Follows(net, ip, b)) || (ip == net.gatewayIP && exists a, b :: Follows(net, a, b))
  }

  /** The roles of a known address, most specific first. */
  ghost function RolesOf(net: Net, ip: string): seq<Role> {
    (if ip == net.gatewayIP then [Gateway] else []) + (if ForwardsFor(net, ip) then [Router] else [])
    + (if ip == net.agentIP then [Agent] else []) + [Host]
  }

  lemma HopFollows(net: Net, chainEv: string, ids: set<string>, h: Hop) returns (a: string, b: string)
    requires Identifies(net, ids) && h in ChainHops(net.chain, ids, chainEv)
    ensures Follows(net, a, b) && h.fromID == DevID(a)
  {
    var i := HopListed(net.chain, ids, chainEv, h);
    a, b := net.chain[i], net.chain[i + 1];
    var a' :| a' in net.known && DevID(a) == DevID(a');
    var b' :| b' in net.known && DevID(b) == DevID(b');
    DevIDInjective(a, a');
    DevIDInjective(b, b');
  }

  lemma FollowsIsHop(net: Net, chainEv: string, ids: set<string>, a: string, b: string)
    requires Identifies(net, ids) && Follows(net, a, b)
    ensures Hop(DevID(a), DevID(b), [chainEv]) in ChainHops(net.chain, ids, chainEv)
  {
    var i :| 0 <= i < |net.chain| - 1 && net.chain[i] == a && net.chain[i + 1] == b;
    KnownID(net, ids, a);
    KnownID(net, ids, b);
    HopIncluded(net.chain, ids, chainEv, i);
  }

  lemma ForwardsMeans(net: Net, chainEv: string, build: BuildInput, ip: string)
    requires Describes(net, chainEv, build) && ip in net.known
    ensures Forwards(build, DevID(ip)) <==> ForwardsFor(net, ip)
  {
    var ids := Elements(IDs(build.devices));
    RolesAgree(ip, net.gatewayIP);
    if i :| 0 <= i < |build.hops| && build.hops[i].fromID == DevID(ip) {
      var a, b := HopFollows(net, chainEv, ids, build.hops[i]);
      DevIDInjective(a, ip);
    }
    if build.hops != [] {
      var a, b := HopFollows(net, chainEv, ids, build.hops[0]);
    }
    if b :| Follows(net, ip, b) {
      FollowsIsHop(net, chainEv, ids, ip, b);
      var i :| 0 <= i < |build.hops| && build.hops[i] == Hop(DevID(ip), DevID(b), [chainEv]);
    }
    if a, b :| Follows(net, a, b) {
      FollowsIsHop(net, chainEv, ids, a, b);
    }
  }

  lemma RolesMean(net: Net, chainEv: string, build: BuildInput, d: Device, ip: string)
    requires Describes(net, chainEv, build) && ip in net.known && d.id == DevID(ip)
    ensures WithRoles(build, d).roles == RolesOf(net, ip)
  {
    ForwardsMeans(net, chainEv, build, ip);
    RolesAgree(ip, net.agentIP);
    RolesAgree(ip, net.gatewayIP);
  }

  // ---- the summary ----

  lemma BuiltDistinct(build: BuildInput, edges: seq<Edge>)
    requires BuiltEdges(build, edges)
    ensures Distinct(edges) && forall e | e in edges :: e.physical <==> IsPhysicalEvidenceEdge(e.kind)
  {
    EdgesTotal(AdmitAll(Elements(IDs(build.devices)), Offered(build)));
    AscendingDistinct(EdgeLess, edges);
    forall e | e in edges ensures e.physical <==> IsPhysicalEvidenceEdge(e.kind) {
      var i :| 0 <= i < |edges| && edges[i] == e;
      var k := BuiltEdgeIsWinner(build, edges, i);
      OfferedIsWellBuilt(build, e);
    }
  }

  /** The counter of the builder counts the edges of at least 0.70. */
  lemma {:induction false} HighCounted(edges: seq<Edge>)
    ensures Distinct(edges) ==> CountHigh(edges) == |set e | e in edges && e.confidence >= 0.70|
  {
    if edges != [] && Distinct(edges) {
      var init, last := edges[..|edges| - 1], edges[|edges| - 1];
      HighCounted(init);
      assert edges == init + [last];
      assert last !in init;
      var high := set e | e in init && e.confidence >= 0.70;
      assert (set e | e in edges && e.confidence >= 0.70) == if last.confidence >= 0.70 then high + {last} else high;
    }
  }
}
