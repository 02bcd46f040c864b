/** The report validator: a method that lists problems, proved to list exactly the defects a report has. */
module ReportValidator {
  import opened TopologyModel

  datatype DeviceFault = NoID | Duplicate | NoAddresses | ConfidenceRange
  datatype RecordFault = RecordNoID | RecordDuplicate | NoSource | NoKind
  datatype EdgeFault =
    | EdgeNoID | EdgeDuplicate | UnknownType | NoLayer | NoRelationship | NoLineStyle | EdgeConfidenceRange
    | NoReason | UnknownSource | UnknownTarget | Unproven | FalselyPhysical
  datatype NodeFault = NodeNoID | NodeDuplicate | NodeConfidenceRange
  datatype V2EdgeFault =
    | V2NoID | V2NoEndpoint | V2UnknownSource | V2UnknownTarget | V2Untyped | V2Unexplained | V2ConfidenceRange
  datatype CountFault = Devices | Edges | EvidenceRecords

  datatype Problem =
    | BadSchema
    | OfDevice(i: nat, device: DeviceFault)
    | OfEvidence(i: nat, record: RecordFault)
    | OfRegistry(i: nat, record: RecordFault)
    | DeviceEvidence(i: nat, id: string)
    | ServiceEvidence(i: nat, j: nat, id: string)
    | OfEdge(i: nat, edge: EdgeFault)
    | EdgeEvidence(i: nat, id: string)
    | BadV2Schema
    | OfNode(i: nat, node: NodeFault)
    | OfV2Edge(i: nat, v2edge: V2EdgeFault)
    | OfCount(count: CountFault)

  // ---- what each problem means ----

  predicate InUnit(c: real) {
    0.0 <= c <= 1.0
  }

  /** The ids of the records that have one. */
  ghost function DeviceIDs(ds: seq<Device>): set<string> {
    set i | 0 <= i < |ds| && ds[i].id != "" :: ds[i].id
  }

  ghost function RecordIDs(es: seq<Evidence>): set<string> {
    set i | 0 <= i < |es| && es[i].id != "" :: es[i].id
  }

  ghost function RegistryIDs(rs: seq<RegistryItem>): set<string> {
    set i | 0 <= i < |rs| && rs[i].id != "" :: rs[i].id
  }

  ghost function EdgeIDs(es: seq<Edge>): set<string> {
    set i | 0 <= i < |es| :: es[i].id
  }

  ghost function NodeIDs(ns: seq<V2Node>): set<string> {
    set i | 0 <= i < |ns| && ns[i].id != "" :: ns[i].id
  }

  ghost function KnownEvidence(r: Report): set<string> {
    RecordIDs(r.evidence) + RegistryIDs(r.registry)
  }

  ghost predicate DeviceDefect(ds: seq<Device>, i: nat, f: DeviceFault)
    requires i < |ds|
  {
    FaultyDevice(ds[i], ds[i].id in DeviceIDs(ds[..i]), f)
  }

  /** The fault a device has, `seen` before or not. */
  ghost predicate FaultyDevice(d: Device, seen: bool, f: DeviceFault) {
    match f
    case NoID => d.id == ""
    case Duplicate => seen
    case NoAddresses => d.id != "" && d.addresses == []
    case ConfidenceRange => d.id != "" && !InUnit(d.confidence)
  }

  ghost predicate EvidenceDefect(es: seq<Evidence>, i: nat, f: RecordFault)
    requires i < |es|
  {
    match f
    case RecordNoID => es[i].id == ""
    case RecordDuplicate => es[i].id in RecordIDs(es[..i])
    case _ => false
  }

  ghost predicate RegistryDefect(rs: seq<RegistryItem>, i: nat, f: RecordFault)
    requires i < |rs|
  {
    FaultyItem(rs[i], rs[i].id in RegistryIDs(rs[..i]), f)
  }

  ghost predicate FaultyItem(e: RegistryItem, seen: bool, f: RecordFault) {
    match f
    case RecordNoID => e.id == ""
    case RecordDuplicate => seen
    case NoSource => e.id != "" && e.source == ""
    case NoKind => e.id != "" && e.kind == ""
  }

  ghost predicate EdgeDefect(es: seq<Edge>, devices: set<string>, i: nat, f: EdgeFault)
    requires i < |es|
  {
    var e := es[i];
    match f
    case EdgeNoID => e.id == ""
    case EdgeDuplicate => e.id != "" && e.id in EdgeIDs(es[..i])
    case UnknownType => e.kind.Other?
    case NoLayer => e.layer == ""
    case NoRelationship => e.relationship == ""
    case NoLineStyle => e.lineStyle == ""
    case EdgeConfidenceRange => !InUnit(e.confidence)
    case NoReason => e.reason == ""
    case UnknownSource => e.source !in devices
    case UnknownTarget => e.target !in devices
    case Unproven => IsPhysicalEvidenceEdge(e.kind) && e.evidenceIDs == []
    case FalselyPhysical => !IsPhysicalEvidenceEdge(e.kind) && e.physical
  }

  ghost predicate NodeDefect(ns: seq<V2Node>, i: nat, f: NodeFault)
    requires i < |ns|
  {
    match f
    case NodeNoID => ns[i].id == ""
    case NodeDuplicate => ns[i].id in NodeIDs(ns[..i])
    case NodeConfidenceRange => ns[i].id != "" && !InUnit(ns[i].confidence)
  }

  ghost predicate V2EdgeDefect(e: V2Edge, nodes: set<string>, f: V2EdgeFault) {
    match f
    case V2NoID => e.id == ""
    case V2NoEndpoint => e.source == "" || e.target == ""
    case V2UnknownSource => e.source !in nodes
    case V2UnknownTarget => e.target !in nodes
    case V2Untyped => e.kind == "" || e.relation == "" || e.medium == ""
    case V2Unexplained => e.explanation == ""
    case V2ConfidenceRange => !InUnit(e.confidence)
  }

  ghost predicate CountDefect(r: Report, f: CountFault) {
    match f
    case Devices => r.summary.deviceCount != |r.devices|
    case Edges => r.summary.edgeCount != |r.edges|
    case EvidenceRecords => r.summary.evidenceCount != |r.evidence|
  }

  /** The report has the defect that `p` names. */
  ghost predicate Defect(r: Report, p: Problem) {
    match p
    case BadSchema => r.schema != SCHEMA
    case OfDevice(i, f) => i < |r.devices| && DeviceDefect(r.devices, i, f)
    case OfEvidence(i, f) => i < |r.evidence| && EvidenceDefect(r.evidence, i, f)
    case OfRegistry(i, f) => i < |r.registry| && RegistryDefect(r.registry, i, f)
    case DeviceEvidence(i, id) => i < |r.devices| && id in r.devices[i].evidenceIDs && id !in KnownEvidence(r)
    case ServiceEvidence(i, j, id) =>
      && i < |r.devices| && j < |r.devices[i].services|
      && id in r.devices[i].services[j].evidenceIDs && id !in KnownEvidence(r)
    case OfEdge(i, f) => i < |r.edges| && EdgeDefect(r.edges, DeviceIDs(r.devices), i, f)
    case EdgeEvidence(i, id) => i < |r.edges| && id in r.edges[i].evidenceIDs && id !in KnownEvidence(r)
    case BadV2Schema => r.topology.Some? && r.topology.value.schema != SCHEMA
    case OfNode(i, f) => r.topology.Some? && i < |r.topology.value.nodes| && NodeDefect(r.topology.value.nodes, i, f)
    case OfV2Edge(i, f) =>
      && r.topology.Some? && i < |r.topology.value.edges|
      && V2EdgeDefect(r.topology.value.edges[i], NodeIDs(r.topology.value.nodes), f)
    case OfCount(f) => CountDefect(r, f)
  }

  ghost predicate WellFormed(r: Report) {
    forall p :: !Defect(r, p)
  }

  // ---- the checks, section by section ----

  /** Append `p` when the check `b` fails the report. */
  function Note(problems: seq<Problem>, b: bool, p: Problem): (r: seq<Problem>)
    ensures forall q :: q in r <==> q in problems || (b && q == p)
  {
    if b then problems + [p] else problems
  }

  lemma DeviceIDsNext(ds: seq<Device>, i: nat)
    requires i < |ds|
    ensures DeviceIDs(ds[..i + 1]) == DeviceIDs(ds[..i]) + (if ds[i].id == "" then {} else {ds[i].id})
  {
    assert ds[..i + 1] == ds[..i] + [ds[i]];
  }

  lemma RegistryIDsNext(rs: seq<RegistryItem>, i: nat)
    requires i < |rs|
    ensures RegistryIDs(rs[..i + 1]) == RegistryIDs(rs[..i]) + (if rs[i].id == "" then {} else {rs[i].id})
  {
    assert rs[..i + 1] == rs[..i] + [rs[i]];
  }

  method CheckDevices(ds: seq<Device>) returns (out: seq<Problem>, ids: set<string>)
    ensures ids == DeviceIDs(ds)
    ensures forall p :: p in out <==> p.OfDevice? && p.i < |ds| && DeviceDefect(ds, p.i, p.device)
  {
    out, ids := [], {};
    for i := 0 to |ds|
      invariant ids == DeviceIDs(ds[..i])
      invariant forall p :: p in out <==> p.OfDevice? && p.i < i && DeviceDefect(ds, p.i, p.device)
    {
      var faults := CheckDevice(i, ds[i], ids);
      out := out + faults;
      DeviceIDsNext(ds, i);
      if ds[i].id != "" {
        ids := ids + {ds[i].id};
      }
    }
    assert ds[..|ds|] == ds;
  }

  method CheckDevice(i: nat, d: Device, ids: set<string>) returns (out: seq<Problem>)
    requires "" !in ids
    ensures forall p :: p in out <==> p.OfDevice? && p.i == i && FaultyDevice(d, d.id in ids, p.device)
  {
    if d.id == "" {
      return [OfDevice(i, NoID)];
    }
    out := Note([], d.id in ids, OfDevice(i, Duplicate));
    out := Note(out, |d.addresses| == 0, OfDevice(i, NoAddresses));
    out := Note(out, d.confidence < 0.0 || d.confidence > 1.0, OfDevice(i, ConfidenceRange));
  }

  method CheckEvidence(es: seq<Evidence>) returns (out: seq<Problem>, ids: set<string>)
    ensures ids == RecordIDs(es)
    ensures forall p :: p in out <==> p.OfEvidence? && p.i < |es| && EvidenceDefect(es, p.i, p.record)
  {
    out, ids := [], {};
    for i := 0 to |es|
      invariant ids == RecordIDs(es[..i])
      invariant forall p :: p in out <==> p.OfEvidence? && p.i < i && EvidenceDefect(es, p.i, p.record)
    {
      assert es[..i + 1] == es[..i] + [es[i]];
      if es[i].id == "" {
        out := out + [OfEvidence(i, RecordNoID)];
        continue;
      }
      out := Note(out, es[i].id in ids, OfEvidence(i, RecordDuplicate));
      ids := ids + {es[i].id};
    }
    assert es[..|es|] == es;
  }

  method CheckRegistry(rs: seq<RegistryItem>) returns (out: seq<Problem>, ids: set<string>)
    ensures ids == RegistryIDs(rs)
    ensures forall p :: p in out <==> p.OfRegistry? && p.i < |rs| && RegistryDefect(rs, p.i, p.record)
  {
    out, ids := [], {};
    for i := 0 to |rs|
      invariant ids == RegistryIDs(rs[..i])
      invariant forall p :: p in out <==> p.OfRegistry? && p.i < i && RegistryDefect(rs, p.i, p.record)
    {
      var faults := CheckItem(i, rs[i], ids);
      out := out + faults;
      RegistryIDsNext(rs, i);
      if rs[i].id != "" {
        ids := ids + {rs[i].id};
      }
    }
    assert rs[..|rs|] == rs;
  }

  method CheckItem(i: nat, e: RegistryItem, ids: set<string>) returns (out: seq<Problem>)
    requires "" !in ids
    ensures forall p :: p in out <==> p.OfRegistry? && p.i == i && FaultyItem(e, e.id in ids, p.record)
  {
    if e.id == "" {
      return [OfRegistry(i, RecordNoID)];
    }
    out := Note([], e.id in ids, OfRegistry(i, RecordDuplicate));
    out := Note(out, e.source == "", OfRegistry(i, NoSource));
    out := Note(out, e.kind == "", OfRegistry(i, NoKind));
  }

  /** checkEvidence: the ids nobody recorded. */
  method UnknownIDs(ids: seq<string>, known: set<string>) returns (out: seq<string>)
    ensures forall id :: id in out <==> id in ids && id !in known
  {
    out := [];
    for k := 0 to |ids|
      invariant forall id :: id in out <==> id in ids[..k] && id !in known
    {
      assert ids[..k + 1] == ids[..k] + [ids[k]];
      if ids[k] !in known {
        out := out + [ids[k]];
      }
    }
    assert ids[..|ids|] == ids;
  }

  method CheckDeviceReferences(ds: seq<Device>, known: set<string>) returns (out: seq<Problem>)
    ensures forall p :: p in out <==>
      || (p.DeviceEvidence? && p.i < |ds| && p.id in ds[p.i].evidenceIDs && p.id !in known)
      || (p.ServiceEvidence? && p.i < |ds| && p.j < |ds[p.i].services| && p.id in ds[p.i].services[p.j].evidenceIDs
          && p.id !in known)
  {
    out := [];
    for i := 0 to |ds|
      invariant forall p :: p in out <==>
        || (p.DeviceEvidence? && p.i < i && p.id in ds[p.i].evidenceIDs && p.id !in known)
        || (p.ServiceEvidence? && p.i < i && p.j < |ds[p.i].services| && p.id in ds[p.i].services[p.j].evidenceIDs
            && p.id !in known)
    {
      var bad := UnknownIDs(ds[i].evidenceIDs, known);
      var own := seq(|bad|, k requires 0 <= k < |bad| => DeviceEvidence(i, bad[k]));
      forall p ensures p in own <==> p.DeviceEvidence? && p.i == i && p.id in bad {
        if p.DeviceEvidence? && p.i == i && p.id in bad {
          var k :| 0 <= k < |bad| && bad[k] == p.id;
          assert own[k] == p;
        }
      }
      var services := CheckServiceReferences(i, ds[i].services, known);
      out := out + own + services;
    }
  }

  method CheckServiceReferences(i: nat, ss: seq<Service>, known: set<string>) returns (out: seq<Problem>)
    ensures forall p :: p in out <==>
      p.ServiceEvidence? && p.i == i && p.j < |ss| && p.id in ss[p.j].evidenceIDs && p.id !in known
  {
    out := [];
    for j := 0 to |ss|
      invariant forall p :: p in out <==>
        p.ServiceEvidence? && p.i == i && p.j < j && p.id in ss[p.j].evidenceIDs && p.id !in known
    {
      var bad := UnknownIDs(ss[j].evidenceIDs, known);
      var own := seq(|bad|, k requires 0 <= k < |bad| => ServiceEvidence(i, j, bad[k]));
      forall p ensures p in own <==> p.ServiceEvidence? && p.i == i && p.j == j && p.id in bad {
        if p.ServiceEvidence? && p.i == i && p.j == j && p.id in bad {
          var k :| 0 <= k < |bad| && bad[k] == p.id;
          assert own[k] == p;
        }
      }
      out := out + own;
    }
  }

  method CheckEdges(es: seq<Edge>, devices: set<string>, known: set<string>) returns (out: seq<Problem>)
    ensures forall p :: p in out <==>
      || (p.OfEdge? && p.i < |es| && EdgeDefect(es, devices, p.i, p.edge))
      || (p.EdgeEvidence? && p.i < |es| && p.id in es[p.i].evidenceIDs && p.id !in known)
  {
    out := [];
    var ids: set<string> := {};
    for i := 0 to |es|
      invariant ids == EdgeIDs(es[..i])
      invariant forall p :: p in out <==>
        || (p.OfEdge? && p.i < i && EdgeDefect(es, devices, p.i, p.edge))
        || (p.EdgeEvidence? && p.i < i && p.id in es[p.i].evidenceIDs && p.id !in known)
    {
      assert es[..i + 1] == es[..i] + [es[i]];
      var faults := CheckEdge(es, i, ids, devices);
      var bad := UnknownIDs(es[i].evidenceIDs, known);
      var refs := seq(|bad|, k requires 0 <= k < |bad| => EdgeEvidence(i, bad[k]));
      forall p ensures p in refs <==> p.EdgeEvidence? && p.i == i && p.id in bad {
        if p.EdgeEvidence? && p.i == i && p.id in bad {
          var k :| 0 <= k < |bad| && bad[k] == p.id;
          assert refs[k] == p;
        }
      }
      out := out + faults + refs;
      ids := ids + {es[i].id};
    }
    assert es[..|es|] == es;
  }

  method CheckEdge(es: seq<Edge>, i: nat, ids: set<string>, devices: set<string>) returns (out: seq<Problem>)
    requires i < |es| && ids == EdgeIDs(es[..i])
    ensures forall p :: p in out <==> p.OfEdge? && p.i == i && EdgeDefect(es, devices, i, p.edge)
  {
    var shape := CheckEdgeShape(es, i, ids);
    var ends := CheckEdgeEnds(es, i, devices);
    var claims := CheckEdgeClaims(es, i);
    out := shape + ends + claims;
  }

  predicate ShapeFault(f: EdgeFault) {
    f.EdgeNoID? || f.EdgeDuplicate? || f.UnknownType? || f.NoLayer? || f.NoRelationship? || f.NoLineStyle?
  }

  predicate ClaimFault(f: EdgeFault) {
    f.Unproven? || f.FalselyPhysical?
  }

  method CheckEdgeShape(es: seq<Edge>, i: nat, ids: set<string>) returns (out: seq<Problem>)
    requires i < |es| && ids == EdgeIDs(es[..i])
    ensures forall p :: p in out <==> p.OfEdge? && p.i == i && ShapeFault(p.edge) && EdgeDefect(es, {}, i, p.edge)
  {
    var e := es[i];
    out := if e.id == "" then [OfEdge(i, EdgeNoID)] else Note([], e.id in ids, OfEdge(i, EdgeDuplicate));
    out := Note(out, e.kind.Other?, OfEdge(i, UnknownType));
    out := Note(out, e.layer == "", OfEdge(i, NoLayer));
    out := Note(out, e.relationship == "", OfEdge(i, NoRelationship));
    out := Note(out, e.lineStyle == "", OfEdge(i, NoLineStyle));
  }

  method CheckEdgeEnds(es: seq<Edge>, i: nat, devices: set<string>) returns (out: seq<Problem>)
    requires i < |es|
    ensures forall p :: p in out <==>
      p.OfEdge? && p.i == i && !ShapeFault(p.edge) && !ClaimFault(p.edge) && EdgeDefect(es, devices, i, p.edge)
  {
    var e := es[i];
    out := Note([], e.confidence < 0.0 || e.confidence > 1.0, OfEdge(i, EdgeConfidenceRange));
    out := Note(out, e.reason == "", OfEdge(i, NoReason));
    out := Note(out, e.source !in devices, OfEdge(i, UnknownSource));
    out := Note(out, e.target !in devices, OfEdge(i, UnknownTarget));
  }

  method CheckEdgeClaims(es: seq<Edge>, i: nat) returns (out: seq<Problem>)
    requires i < |es|
    ensures forall p :: p in out <==> p.OfEdge? && p.i == i && ClaimFault(p.edge) && EdgeDefect(es, {}, i, p.edge)
  {
    var e := es[i];
    out := Note([], IsPhysicalEvidenceEdge(e.kind) && |e.evidenceIDs| == 0, OfEdge(i, Unproven));
    out := Note(out, !IsPhysicalEvidenceEdge(e.kind) && e.physical, OfEdge(i, FalselyPhysical));
  }

  method CheckTopology(t: TopologyV2) returns (out: seq<Problem>)
    ensures forall p :: p in out <==>
      || (p.BadV2Schema? && t.schema != SCHEMA)
      || (p.OfNode? && p.i < |t.nodes| && NodeDefect(t.nodes, p.i, p.node))
      || (p.OfV2Edge? && p.i < |t.edges| && V2EdgeDefect(t.edges[p.i], NodeIDs(t.nodes), p.v2edge))
  {
    var nodes, ids := CheckNodes(t.nodes);
    var edges: seq<Problem> := [];
    for i := 0 to |t.edges|
      invariant forall p :: p in edges <==> p.OfV2Edge? && p.i < i && V2EdgeDefect(t.edges[p.i], ids, p.v2edge)
    {
      var faults := CheckV2Edge(i, t.edges[i], ids);
      edges := edges + faults;
    }
    out := Note([], t.schema != SCHEMA, BadV2Schema) + nodes + edges;
  }

  method CheckV2Edge(i: nat, e: V2Edge, nodes: set<string>) returns (out: seq<Problem>)
    ensures forall p :: p in out <==> p.OfV2Edge? && p.i == i && V2EdgeDefect(e, nodes, p.v2edge)
  {
    var ends := CheckV2Ends(i, e, nodes);
    out := Note([], e.id == "", OfV2Edge(i, V2NoID));
    out := Note(out, e.kind == "" || e.relation == "" || e.medium == "", OfV2Edge(i, V2Untyped));
    out := Note(out, e.explanation == "", OfV2Edge(i, V2Unexplained));
    out := Note(out, e.confidence < 0.0 || e.confidence > 1.0, OfV2Edge(i, V2ConfidenceRange));
    out := out + ends;
  }

  method CheckV2Ends(i: nat, e: V2Edge, nodes: set<string>) returns (out: seq<Problem>)
    ensures forall p :: p in out <==>
      p.OfV2Edge? && p.i == i && (p.v2edge.V2NoEndpoint? || p.v2edge.V2UnknownSource? || p.v2edge.V2UnknownTarget?)
      && V2EdgeDefect(e, nodes, p.v2edge)
  {
    out := Note([], e.source == "" || e.target == "", OfV2Edge(i, V2NoEndpoint));
    out := Note(out, e.source !in nodes, OfV2Edge(i, V2UnknownSource));
    out := Note(out, e.target !in nodes, OfV2Edge(i, V2UnknownTarget));
  }

  method CheckNodes(ns: seq<V2Node>) returns (out: seq<Problem>, ids: set<string>)
    ensures ids == NodeIDs(ns)
    ensures forall p :: p in out <==> p.OfNode? && p.i < |ns| && NodeDefect(ns, p.i, p.node)
  {
    out, ids := [], {};
    for i := 0 to |ns|
      invariant ids == NodeIDs(ns[..i])
      invariant forall p :: p in out <==> p.OfNode? && p.i < i && NodeDefect(ns, p.i, p.node)
    {
      assert ns[..i + 1] == ns[..i] + [ns[i]];
      if ns[i].id == "" {
        out := out + [OfNode(i, NodeNoID)];
        continue;
      }
      out := Note(out, ns[i].id in ids, OfNode(i, NodeDuplicate));
      ids := ids + {ns[i].id};
      out := Note(out, ns[i].confidence < 0.0 || ns[i].confidence > 1.0, OfNode(i, NodeConfidenceRange));
    }
    assert ns[..|ns|] == ns;
  }

  predicate AboutNodes(p: Problem) {
    p.OfDevice? || p.OfEvidence? || p.OfRegistry?
  }

  method CheckNodesAndRecords(r: Report) returns (out: seq<Problem>, devices: set<string>, known: set<string>)
    ensures devices == DeviceIDs(r.devices) && known == KnownEvidence(r)
    ensures forall p :: p in out <==> AboutNodes(p) && Defect(r, p)
  {
    var a, b, c, evidenceIDs, registryIDs;
    a, devices := CheckDevices(r.devices);
    b, evidenceIDs := CheckEvidence(r.evidence);
    c, registryIDs := CheckRegistry(r.registry);
    known := evidenceIDs + registryIDs;
    out := a + b + c;
  }

  predicate AboutReferences(p: Problem) {
    p.DeviceEvidence? || p.ServiceEvidence? || p.OfEdge? || p.EdgeEvidence?
  }

  method CheckReferencesAndEdges(r: Report, devices: set<string>, known: set<string>) returns (out: seq<Problem>)
    requires devices == DeviceIDs(r.devices) && known == KnownEvidence(r)
    ensures forall p :: p in out <==> AboutReferences(p) && Defect(r, p)
  {
    var a := CheckDeviceReferences(r.devices, known);
    var b := CheckEdges(r.edges, devices, known);
    out := a + b;
  }

  method CheckCounts(r: Report) returns (out: seq<Problem>)
    ensures forall p :: p in out <==> p.OfCount? && CountDefect(r, p.count)
  {
    out := Note([], r.summary.deviceCount != |r.devices|, OfCount(Devices));
    out := Note(out, r.summary.edgeCount != |r.edges|, OfCount(Edges));
    out := Note(out, r.summary.evidenceCount != |r.evidence|, OfCount(EvidenceRecords));
  }

  method CheckTopologyAndCounts(r: Report) returns (out: seq<Problem>)
    ensures forall p :: p in out <==> !p.BadSchema? && !AboutNodes(p) && !AboutReferences(p) && Defect(r, p)
  {
    var topology: seq<Problem> := [];
    if r.topology.Some? {
      topology := CheckTopology(r.topology.value);
    }
    var counts := CheckCounts(r);
    out := topology + counts;
  }

  /** Lists exactly the defects of the report: none missed, none made up. */
  method ValidateReport(r: Report) returns (problems: seq<Problem>)
    ensures forall p :: p in problems <==> Defect(r, p)
    ensures problems == [] <==> WellFormed(r)
  {
    var records, devices, known := CheckNodesAndRecords(r);
    var references := CheckReferencesAndEdges(r, devices, known);
    var rest := CheckTopologyAndCounts(r);
    problems := Note([], r.schema != SCHEMA, BadSchema) + records + references + rest;
    assert problems != [] ==> problems[0] in problems;
  }
}
