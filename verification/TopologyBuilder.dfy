/** Building the topology: proven neighbours, route hops, the default gateway and inferred peers become
    edges of a graph, and the devices get the roles the evidence supports. */
module TopologyBuilder {
  import opened Sorting
  import opened Text
  import opened TopologyModel
  import opened TopologyGraph
  import opened ReportValidator

  datatype Hop = Hop(fromID: string, toID: string, evidenceIDs: seq<string>)

  datatype Neighbor = Neighbor(fromID: string, toID: string, kind: EdgeType, confidence: real, reason: string,
                               evidenceIDs: seq<string>)

  datatype BuildInput = BuildInput(
    agentID: string, gatewayID: string, devices: seq<Device>, gatewayEvidence: seq<string>,
    hops: seq<Hop>, peers: seq<string>, neighbors: seq<Neighbor>)

  datatype BuildResult = BuildResult(devices: seq<Device>, edges: seq<Edge>, inferredOnly: bool,
                                     highConfidenceEdges: nat)

  const HOP_REASON := "Adjacent hops observed in a traceroute."
  const GATEWAY_REASON := "The agent's default route points at this gateway."
  const PEER_REASON := "On the same subnet; adjacency is inferred."

  function NeighborReason(kind: EdgeType): string {
    match kind
    case DirectLLDP => "Neighbour reported via LLDP."
    case DirectCDP => "Neighbour reported via CDP."
    case SNMPBridge => "Forwarding table entry read via SNMP."
    case _ => "Link-layer neighbour."
  }

  // ---- the edges offered to the graph, in order ----

  predicate Provable(n: Neighbor) {
    IsPhysicalEvidenceEdge(n.kind) && n.evidenceIDs != []
  }

  function NeighborEdge(n: Neighbor): Edge {
    NewEdge(n.fromID, n.toID, n.kind, if n.reason == "" then NeighborReason(n.kind) else n.reason, n.confidence,
            n.evidenceIDs)
  }

  /** What a proven neighbour's edge says, whatever its kind. */
  lemma NeighborEdgeSpelled(n: Neighbor, asked: real)
    requires Provable(n) && asked == n.confidence
    ensures var e := NeighborEdge(n);
      && e.source == n.fromID && e.target == n.toID && e.kind == n.kind && e.layer == "L2" && e.lineStyle == "solid"
      && e.physical && !e.inferred && (n.reason != "" ==> e.reason == n.reason)
    ensures var e := NeighborEdge(n);
      match n.kind
      case DirectLLDP => e.relationship == "lldp_neighbor" && e.proofSource == "lldp" && Between(e, asked, 0.95, 0.98)
      case DirectCDP => e.relationship == "cdp_neighbor" && e.proofSource == "cdp" && Between(e, asked, 0.95, 0.98)
      case _ => e.relationship == e.proofSource == "snmp_bridge_fdb" && Between(e, asked, 0.80, 0.80)
  {
  }

  /** The confidence asked for, failing that the usual one, and the label that goes with it. */
  predicate Between(e: Edge, asked: real, usual: real, ceiling: real) {
    && e.confidence == (if asked <= 0.0 then usual else if asked < ceiling then asked else ceiling)
    && match e.confidenceLabel
       case VeryHigh => e.confidence >= 0.90
       case High => 0.70 <= e.confidence < 0.90
       case Medium => 0.45 <= e.confidence < 0.70
       case Low => 0.25 <= e.confidence < 0.45
       case VeryLow => e.confidence < 0.25
  }

  function NeighborEdges(ns: seq<Neighbor>): seq<Edge> {
    if ns == [] then []
    else NeighborEdges(ns[..|ns| - 1]) + (if Provable(ns[|ns| - 1]) then [NeighborEdge(ns[|ns| - 1])] else [])
  }

  function HopEdge(h: Hop): Edge {
    NewEdge(h.fromID, h.toID, RouteHop, HOP_REASON, 0.0, h.evidenceIDs)
  }

  function HopEdges(hs: seq<Hop>): seq<Edge> {
    if hs == [] then [] else HopEdges(hs[..|hs| - 1]) + [HopEdge(hs[|hs| - 1])]
  }

  function GatewayEdges(input: BuildInput): seq<Edge> {
    if input.agentID != "" && input.gatewayID != "" then
      [NewEdge(input.agentID, input.gatewayID, GatewayDefault, GATEWAY_REASON, 0.0, input.gatewayEvidence)]
    else []
  }

  function Hub(input: BuildInput): string {
    if input.gatewayID == "" then input.agentID else input.gatewayID
  }

  function PeerEdges(input: BuildInput, ps: seq<string>): seq<Edge> {
    if ps == [] then []
    else
      var p := ps[|ps| - 1];
      PeerEdges(input, ps[..|ps| - 1])
      + (if p == input.agentID || p == input.gatewayID then []
         else [NewEdge(Hub(input), p, InferredL2, PEER_REASON, 0.0, [])])
  }

  function Offered(input: BuildInput): seq<Edge> {
    NeighborEdges(input.neighbors) + HopEdges(input.hops) + GatewayEdges(input) + PeerEdges(input, input.peers)
  }

  function IDs(ds: seq<Device>): seq<string> {
    seq(|ds|, i requires 0 <= i < |ds| => ds[i].id)
  }

  // ---- roles ----

  predicate Forwards(input: BuildInput, id: string) {
    (exists i | 0 <= i < |input.hops| :: input.hops[i].fromID == id)
        || (id != "" && id == input.gatewayID && input.hops != [])
  }

  function ClassifyRoles(isAgent: bool, isGateway: bool, forwards: bool): seq<Role> {
    (if isGateway then [Gateway] else []) + (if forwards then [Router] else []) + (if isAgent then [Agent] else [])
        + [Host]
  }

  function WithRoles(input: BuildInput, d: Device): Device {
    var gateway, agent := d.id == input.gatewayID, d.id == input.agentID;
    d.(isGateway := gateway, isAgent := agent, roles := ClassifyRoles(agent, gateway, Forwards(input, d.id)))
  }

  function CountHigh(es: seq<Edge>): nat {
    if es == [] then 0 else CountHigh(es[..|es| - 1]) + (if es[|es| - 1].confidence >= 0.70 then 1 else 0)
  }

  // ---- the builder ----

  lemma AdmitAllNext(ids: set<string>, es: seq<Edge>, e: Edge)
    ensures AdmitAll(ids, es + [e]) == Admit(ids, AdmitAll(ids, es), e)
  {
    assert (es + [e])[..|es|] == es;
  }

  /** The graph holds what inserting `offered` in order leaves. */
  ghost predicate Holds(g: Graph, offered: seq<Edge>)
    reads g
  {
    g.edges == AdmitAll(g.deviceIDs, offered) && Orderly(g.edges)
  }

  method Offer(g: Graph, e: Edge, ghost before: seq<Edge>)
    requires Holds(g, before) && Canonical(e)
    modifies g`edges
    ensures Holds(g, before + [e])
  {
    AdmitAllNext(g.deviceIDs, before, e);
    var _ := g.AddEdge(e);
  }

  lemma NeighborEdgesNext(ns: seq<Neighbor>, i: nat)
    requires i < |ns|
    ensures NeighborEdges(ns[..i + 1]) == if Provable(ns[i]) then NeighborEdges(ns[..i]) + [NeighborEdge(ns[i])]
            else NeighborEdges(ns[..i])
  {
    assert ns[..i + 1][..i] == ns[..i];
  }

  method AddNeighbors(g: Graph, ns: seq<Neighbor>)
    requires Holds(g, [])
    modifies g`edges
    ensures Holds(g, NeighborEdges(ns))
  {
    for i := 0 to |ns|
      invariant Holds(g, NeighborEdges(ns[..i]))
    {
      NeighborEdgesNext(ns, i);
      var n := ns[i];
      if !IsPhysicalEvidenceEdge(n.kind) {
        continue;
      }
      if |n.evidenceIDs| == 0 {
        continue;
      }
      var reason := if n.reason == "" then NeighborReason(n.kind) else n.reason;
      Offer(g, NewEdge(n.fromID, n.toID, n.kind, reason, n.confidence, n.evidenceIDs), NeighborEdges(ns[..i]));
    }
    assert ns[..|ns|] == ns;
  }

  lemma AppendAssociates(a: seq<Edge>, b: seq<Edge>, e: Edge)
    ensures a + (b + [e]) == a + b + [e]
  {
  }

  lemma HopEdgesNext(before: seq<Edge>, hs: seq<Hop>, i: nat)
    requires i < |hs|
    ensures before + HopEdges(hs[..i + 1]) == before + HopEdges(hs[..i]) + [HopEdge(hs[i])]
  {
    assert hs[..i + 1][..i] == hs[..i];
    AppendAssociates(before, HopEdges(hs[..i]), HopEdge(hs[i]));
  }

  method AddHops(g: Graph, hs: seq<Hop>, ghost before: seq<Edge>)
    requires Holds(g, before)
    modifies g`edges
    ensures Holds(g, before + HopEdges(hs))
  {
    assert before + HopEdges(hs[..0]) == before;
    for i := 0 to |hs|
      invariant Holds(g, before + HopEdges(hs[..i]))
    {
      HopEdgesNext(before, hs, i);
      Offer(g, NewEdge(hs[i].fromID, hs[i].toID, RouteHop, HOP_REASON, 0.0, hs[i].evidenceIDs),
            before + HopEdges(hs[..i]));
    }
    assert hs[..|hs|] == hs;
  }

  lemma PeerEdgesNext(before: seq<Edge>, input: BuildInput, ps: seq<string>, i: nat)
    requires i < |ps|
    ensures before + PeerEdges(input, ps[..i + 1])
         == if ps[i] == input.agentID || ps[i] == input.gatewayID then before + PeerEdges(input, ps[..i])
            else before + PeerEdges(input, ps[..i]) + [NewEdge(Hub(input), ps[i], InferredL2, PEER_REASON, 0.0, [])]
  {
    assert ps[..i + 1][..i] == ps[..i];
    if ps[i] == input.agentID || ps[i] == input.gatewayID {
      assert PeerEdges(input, ps[..i]) + [] == PeerEdges(input, ps[..i]);
    } else {
      AppendAssociates(before, PeerEdges(input, ps[..i]), NewEdge(Hub(input), ps[i], InferredL2, PEER_REASON, 0.0, []));
    }
  }

  method AddPeers(g: Graph, input: BuildInput, ghost before: seq<Edge>)
    requires Holds(g, before)
    modifies g`edges
    ensures Holds(g, before + PeerEdges(input, input.peers))
  {
    var hub := input.gatewayID;
    if hub == "" {
      hub := input.agentID;
    }
    var ps := input.peers;
    assert before + PeerEdges(input, ps[..0]) == before;
    for i := 0 to |ps|
      invariant Holds(g, before + PeerEdges(input, ps[..i]))
    {
      PeerEdgesNext(before, input, ps, i);
      if ps[i] == input.agentID || ps[i] == input.gatewayID {
        continue;
      }
      Offer(g, NewEdge(hub, ps[i], InferredL2, PEER_REASON, 0.0, []), before + PeerEdges(input, ps[..i]));
    }
    assert ps[..|ps|] == ps;
  }

  method AddGateway(g: Graph, input: BuildInput, ghost before: seq<Edge>)
    requires Holds(g, before)
    modifies g`edges
    ensures Holds(g, before + GatewayEdges(input))
  {
    if input.agentID != "" && input.gatewayID != "" {
      Offer(g, NewEdge(input.agentID, input.gatewayID, GatewayDefault, GATEWAY_REASON, 0.0, input.gatewayEvidence),
            before);
    } else {
      assert before + GatewayEdges(input) == before;
    }
  }

  method ApplyRoles(input: BuildInput) returns (out: seq<Device>)
    ensures |out| == |input.devices| && forall i | 0 <= i < |out| :: out[i] == WithRoles(input, input.devices[i])
  {
    var forwards: set<string> := {};
    for i := 0 to |input.hops|
      invariant forall id :: id in forwards <==> exists k | 0 <= k < i :: input.hops[k].fromID == id
    {
      forwards := forwards + {input.hops[i].fromID};
    }
    if input.gatewayID != "" && |input.hops| > 0 {
      forwards := forwards + {input.gatewayID};
    }
    out := input.devices;
    for i := 0 to |out|
      invariant |out| == |input.devices|
      invariant forall k | 0 <= k < i :: out[k] == WithRoles(input, input.devices[k])
      invariant forall k | i <= k < |out| :: out[k] == input.devices[k]
    {
      var d := out[i];
      var isGW, isAgent := d.id == input.gatewayID, d.id == input.agentID;
      out := out[i := d.(isGateway := isGW, isAgent := isAgent,
                         roles := ClassifyRoles(isAgent, isGW, d.id in forwards))];
    }
  }

  method Build(input: BuildInput) returns (r: BuildResult)
    ensures |r.devices| == |input.devices|
            && forall i | 0 <= i < |r.devices| :: r.devices[i] == WithRoles(input, input.devices[i])
    ensures var stored := AdmitAll(Elements(IDs(input.devices)), Offered(input));
      Orderly(stored) && SortedView(stored, r.edges) && |r.edges| == |stored|
    ensures r.inferredOnly <==> forall k | 0 <= k < |r.edges| :: !IsPhysicalEvidenceEdge(r.edges[k].kind)
    ensures r.highConfidenceEdges == CountHigh(r.edges)
  {
    var g := new Graph(IDs(input.devices));
    AddNeighbors(g, input.neighbors);
    AddHops(g, input.hops, NeighborEdges(input.neighbors));
    AddGateway(g, input, NeighborEdges(input.neighbors) + HopEdges(input.hops));
    AddPeers(g, input, NeighborEdges(input.neighbors) + HopEdges(input.hops) + GatewayEdges(input));
    var edges := g.Edges();
    var devices := ApplyRoles(input);
    var inferredOnly, high := Summarize(edges);
    r := BuildResult(devices, edges, inferredOnly, high);
  }

  method Summarize(edges: seq<Edge>) returns (inferredOnly: bool, high: nat)
    ensures inferredOnly <==> forall k | 0 <= k < |edges| :: !IsPhysicalEvidenceEdge(edges[k].kind)
    ensures high == CountHigh(edges)
  {
    inferredOnly, high := true, 0;
    for i := 0 to |edges|
      invariant inferredOnly <==> forall k | 0 <= k < i :: !IsPhysicalEvidenceEdge(edges[k].kind)
      invariant high == CountHigh(edges[..i])
    {
      assert edges[..i + 1][..i] == edges[..i];
      if IsPhysicalEvidenceEdge(edges[i].kind) {
        inferredOnly := false;
      }
      if edges[i].confidence >= 0.70 {
        high := high + 1;
      }
    }
    assert edges[..|edges|] == edges;
  }
}
