/** Every edge the builder stores passes the validator, with one exception: a neighbour whose evidence
    list is not empty but names nothing. */
module BuildValidity {
  import opened Sorting
  import opened Text
  import opened TopologyModel
  import opened TopologyGraph
  import opened ReportValidator
  import opened TopologyBuilder

  /** The parts of an edge the validator looks at on their own. */
  ghost predicate WellBuilt(e: Edge) {
    && !e.kind.Other? && e.id != "" && e.layer != "" && e.relationship != "" && e.lineStyle != ""
    && InUnit(e.confidence) && e.reason != "" && (e.physical <==> IsPhysicalEvidenceEdge(e.kind))
  }

  lemma NewEdgeWellBuilt(s: string, t: string, k: EdgeType, reason: string, override: real, ids: seq<string>)
    requires !k.Other? && reason != ""
    ensures WellBuilt(NewEdge(s, t, k, reason, override, ids))
  {
    assert EdgeID(s, t, k)[0] == 'e';
  }

  /** Where an offered edge came from. */
  datatype Origin = FromNeighbor(n: Neighbor) | FromHop(h: Hop) | FromGateway | FromPeer(p: string)

  ghost predicate Originates(input: BuildInput, e: Edge, o: Origin) {
    match o
    case FromNeighbor(n) => n in input.neighbors && Provable(n) && e == NeighborEdge(n)
    case FromHop(h) => h in input.hops && e == HopEdge(h)
    case FromGateway => e in GatewayEdges(input)
    case FromPeer(p) => p in input.peers && e == NewEdge(Hub(input), p, InferredL2, PEER_REASON, 0.0, [])
  }

  lemma {:induction false} NeighborOrigin(input: BuildInput, ns: seq<Neighbor>, e: Edge) returns (o: Origin)
    requires e in NeighborEdges(ns) && (forall n | n in ns :: n in input.neighbors)
    ensures o.FromNeighbor? && Originates(input, e, o)
  {
    var n := ns[|ns| - 1];
    if Provable(n) && e == NeighborEdge(n) {
      o := FromNeighbor(n);
    } else {
      assert e in NeighborEdges(ns[..|ns| - 1]);
      o := NeighborOrigin(input, ns[..|ns| - 1], e);
    }
  }

  lemma {:induction false} PeerOrigin(input: BuildInput, ps: seq<string>, e: Edge) returns (o: Origin)
    requires e in PeerEdges(input, ps) && (forall p | p in ps :: p in input.peers)
    ensures o.FromPeer? && Originates(input, e, o)
  {
    var p := ps[|ps| - 1];
    if e in PeerEdges(input, ps[..|ps| - 1]) {
      o := PeerOrigin(input, ps[..|ps| - 1], e);
    } else {
      o := FromPeer(p);
    }
  }

  lemma {:induction false} HopOrigin(input: BuildInput, hs: seq<Hop>, e: Edge) returns (o: Origin)
    requires e in HopEdges(hs) && (forall h | h in hs :: h in input.hops)
    ensures o.FromHop? && Originates(input, e, o)
  {
    var h := hs[|hs| - 1];
    if e in HopEdges(hs[..|hs| - 1]) {
      o := HopOrigin(input, hs[..|hs| - 1], e);
    } else {
      o := FromHop(h);
    }
  }

  lemma OfferedOrigin(input: BuildInput, e: Edge) returns (o: Origin)
    requires e in Offered(input)
    ensures Originates(input, e, o)
  {
    if e in NeighborEdges(input.neighbors) {
      o := NeighborOrigin(input, input.neighbors, e);
    } else if e in HopEdges(input.hops) {
      o := HopOrigin(input, input.hops, e);
    } else if e in PeerEdges(input, input.peers) {
      o := PeerOrigin(input, input.peers, e);
    } else {
      o := FromGateway;
    }
  }

  /** Every evidence id the input gives the builder to cite. */
  ghost predicate Cited(input: BuildInput, id: string) {
    || (exists n :: n in input.neighbors && id in n.evidenceIDs)
    || (exists h :: h in input.hops && id in h.evidenceIDs)
    || id in input.gatewayEvidence
  }

  lemma OfferedIsWellBuilt(input: BuildInput, e: Edge)
    requires e in Offered(input)
    ensures WellBuilt(e)
    ensures forall id | id in e.evidenceIDs :: Cited(input, id)
  {
    var o := OfferedOrigin(input, e);
    match o
    case FromNeighbor(n) =>
      NewEdgeWellBuilt(n.fromID, n.toID, n.kind,
                       if n.reason == "" then NeighborReason(n.kind) else n.reason, n.confidence, n.evidenceIDs);
    case FromHop(h) => NewEdgeWellBuilt(h.fromID, h.toID, RouteHop, HOP_REASON, 0.0, h.evidenceIDs);
    case FromGateway => NewEdgeWellBuilt(input.agentID, input.gatewayID, GatewayDefault, GATEWAY_REASON, 0.0,
                                         input.gatewayEvidence);
    case FromPeer(p) => NewEdgeWellBuilt(Hub(input), p, InferredL2, PEER_REASON, 0.0, []);
  }

  /** What Build promises of its edges. */
  ghost predicate BuiltEdges(input: BuildInput, edges: seq<Edge>) {
    var stored := AdmitAll(Elements(IDs(input.devices)), Offered(input));
    Orderly(stored) && SortedView(stored, edges)
  }

  lemma BuiltEdgeIsWinner(input: BuildInput, edges: seq<Edge>, i: nat) returns (k: nat)
    requires BuiltEdges(input, edges) && i < |edges|
    ensures FirstMax(Elements(IDs(input.devices)), Offered(input), edges[i].id, k) && edges[i] == Offered(input)[k]
  {
    var ids := Elements(IDs(input.devices));
    var stored := AdmitAll(ids, Offered(input));
    assert edges[i] in Elements(edges);
    var id :| id in stored && stored[id] == edges[i];
    GraphKeepsFirstMax(ids, Offered(input), id);
    k :| FirstMax(ids, Offered(input), id, k) && stored[id] == Offered(input)[k];
  }

  lemma WinnerIsBuilt(input: BuildInput, edges: seq<Edge>, k: nat) returns (i: nat)
    requires BuiltEdges(input, edges)
    requires k < |Offered(input)| && FirstMax(Elements(IDs(input.devices)), Offered(input), Offered(input)[k].id, k)
    ensures i < |edges| && edges[i] == Offered(input)[k]
  {
    var ids := Elements(IDs(input.devices));
    var stored := AdmitAll(ids, Offered(input));
    var id := Offered(input)[k].id;
    GraphKeepsFirstMax(ids, Offered(input), id);
    var j: nat :| FirstMax(ids, Offered(input), id, j) && stored[id] == Offered(input)[j];
    assert j == k;
    assert stored[id] in stored.Values;
    assert stored[id] in Elements(edges);
    i :| 0 <= i < |edges| && edges[i] == stored[id];
  }

  lemma EdgeEndsKnown(input: BuildInput, edges: seq<Edge>, ds: seq<Device>, i: nat)
    requires BuiltEdges(input, edges) && i < |edges|
    requires IDs(ds) == IDs(input.devices) && forall d | d in ds :: d.id != ""
    ensures edges[i].source in DeviceIDs(ds) && edges[i].target in DeviceIDs(ds)
  {
    var k := BuiltEdgeIsWinner(input, edges, i);
    forall id | id in IDs(ds) ensures id in DeviceIDs(ds) {
      var j :| 0 <= j < |ds| && IDs(ds)[j] == id;
      assert ds[j] in ds;
    }
  }

  lemma BuiltIDsDistinct(input: BuildInput, edges: seq<Edge>, i: nat)
    requires BuiltEdges(input, edges) && i < |edges|
    ensures edges[i].id !in EdgeIDs(edges[..i])
  {
    var stored := AdmitAll(Elements(IDs(input.devices)), Offered(input));
    EdgesTotal(stored);
    AscendingDistinct(EdgeLess, edges);
    forall j | 0 <= j < i ensures edges[..i][j].id != edges[i].id {
      assert edges[j] in Elements(edges) && edges[i] in Elements(edges);
      var x :| x in stored && stored[x] == edges[j];
      var y :| y in stored && stored[y] == edges[i];
    }
  }

  /** A neighbour with a physical kind and a non-empty evidence list that names nothing wins its edge. */
  ghost predicate BlankNeighborWins(input: BuildInput) {
    exists k: nat ::
      && k < |Offered(input)|
      && FirstMax(Elements(IDs(input.devices)), Offered(input), Offered(input)[k].id, k)
      && exists n :: n in input.neighbors && Provable(n) && Offered(input)[k] == NeighborEdge(n) && NamesNothing(n)
  }

  predicate NamesNothing(n: Neighbor) {
    forall id | id in n.evidenceIDs :: id == ""
  }

  lemma NamesNothingIsUnproven(n: Neighbor)
    ensures NeighborEdge(n).evidenceIDs == [] <==> NamesNothing(n)
  {
    var s := SortedSet(n.evidenceIDs);
    if s != [] { assert s[0] in s; }
  }

  /** Over devices with ids, citing only known evidence, the stored edges have no defect at all except
      "claims physical adjacency but cites no evidence", and that one exactly when a blank neighbour wins. */
  lemma BuiltEdgesDefectsExactly(input: BuildInput, edges: seq<Edge>, r: Report)
    requires BuiltEdges(input, edges) && r.edges == edges
    requires IDs(r.devices) == IDs(input.devices) && forall d | d in r.devices :: d.id != ""
    requires forall id | Cited(input, id) && id != "" :: id in KnownEvidence(r)
    ensures (exists p: Problem :: (p.OfEdge? || p.EdgeEvidence?) && Defect(r, p)) <==> BlankNeighborWins(input)
    ensures forall p: Problem | (p.OfEdge? || p.EdgeEvidence?) && Defect(r, p) :: p.OfEdge? && p.edge.Unproven?
  {
    forall p: Problem | (p.OfEdge? || p.EdgeEvidence?) && Defect(r, p)
      ensures p.OfEdge? && p.edge.Unproven? && BlankNeighborWins(input)
    {
      var k := BuiltEdgeIsWinner(input, edges, p.i);
      OfferedIsWellBuilt(input, edges[p.i]);
      EdgeEndsKnown(input, edges, r.devices, p.i);
      BuiltIDsDistinct(input, edges, p.i);
      if p.EdgeEvidence? {
        CitedKnown(input, edges[p.i], r, p.id);
      }
      var o := OfferedOrigin(input, edges[p.i]);
      NamesNothingIsUnproven(o.n);
      assert Offered(input)[k] == NeighborEdge(o.n);
    }
    if BlankNeighborWins(input) {
      var k: nat, n :| k < |Offered(input)|
        && FirstMax(Elements(IDs(input.devices)), Offered(input), Offered(input)[k].id, k)
        && n in input.neighbors && Provable(n) && Offered(input)[k] == NeighborEdge(n) && NamesNothing(n);
      var i := WinnerIsBuilt(input, edges, k);
      NamesNothingIsUnproven(n);
      assert Defect(r, OfEdge(i, Unproven));
    }
  }

  /** What a caller can check beforehand: when every provable neighbour cites some id that is not blank, the
      stored edges have no defect. */
  lemma NamedEvidenceBuildsClean(input: BuildInput, edges: seq<Edge>, r: Report)
    requires BuiltEdges(input, edges) && r.edges == edges
    requires IDs(r.devices) == IDs(input.devices) && forall d | d in r.devices :: d.id != ""
    requires forall id | Cited(input, id) && id != "" :: id in KnownEvidence(r)
    requires forall n | n in input.neighbors && Provable(n) :: !NamesNothing(n)
    ensures forall p: Problem | p.OfEdge? || p.EdgeEvidence? :: !Defect(r, p)
  {
    BuiltEdgesDefectsExactly(input, edges, r);
  }

  lemma CitedKnown(input: BuildInput, e: Edge, r: Report, id: string)
    requires e in Offered(input) && id in e.evidenceIDs
    requires forall id | Cited(input, id) && id != "" :: id in KnownEvidence(r)
    ensures id in KnownEvidence(r)
  {
    OfferedIsWellBuilt(input, e);
    var o := OfferedOrigin(input, e);
  }

  /** The failing case is real: one LLDP neighbour with the evidence list [""]. */
  lemma BlankNeighborExample(a: Device, b: Device)
    requires a.id != b.id
    ensures BlankNeighborWins(BuildInput("", "", [a, b], [], [], [],
                                         [Neighbor(a.id, b.id, DirectLLDP, 0.95, "", [""])]))
  {
    var n := Neighbor(a.id, b.id, DirectLLDP, 0.95, "", [""]);
    var input := BuildInput("", "", [a, b], [], [], [], [n]);
    assert NeighborEdges([n]) == [NeighborEdge(n)] by {
      assert [n][..0] == [];
      assert NeighborEdges([]) == [];
    }
    assert Offered(input) == [NeighborEdge(n)];
    var ids := IDs([a, b]);
    assert ids[0] == a.id && ids[1] == b.id;
    assert Joins(Elements(ids), NeighborEdge(n));
    assert FirstMax(Elements(ids), Offered(input), Offered(input)[0].id, 0);
  }
}
