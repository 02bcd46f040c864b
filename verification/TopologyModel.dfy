/** The report entities shared by the topology builder, the validator and discovery, and the
    per-type tables of an edge. */
module TopologyModel {
  import opened Text
  import opened Options

  const SCHEMA := "iad.topology/v2"

  datatype Evidence = Evidence(id: string, kind: string, source: string)

  datatype RegistryItem = RegistryItem(id: string, source: string, kind: string)

  datatype Service = Service(port: int, protocol: string, name: string, evidenceIDs: seq<string>)

  datatype Role = Gateway | Router | Agent | Host

  datatype Reachability = Self | Reachable | ArpOnly | Unknown

  datatype Device = Dev(
    id: string, hostname: string, mac: string, isAgent: bool, isGateway: bool, roles: seq<Role>,
    addresses: seq<string>, interfaces: seq<string>, services: seq<Service>, reachability: Reachability,
    sources: seq<Source>, confidence: real, evidenceIDs: seq<string>)

  /** How a device was found. */
  datatype Source = TCP | ARPSweep | ARPTable | Nmap | OwnAddress | DefaultRoute

  /** Other stands for any string outside the closed set of edge types. */
  datatype EdgeType = DirectLLDP | DirectCDP | SNMPBridge | RouteHop | InferredL2 | GatewayDefault | Other(name: string)

  datatype Label = VeryHigh | High | Medium | Low | VeryLow

  datatype Edge = Edge(
    id: string, source: string, target: string, kind: EdgeType, layer: string, relationship: string,
    physical: bool, inferred: bool, confidence: real, confidenceLabel: Label, proofSource: string, lineStyle: string,
    evidenceIDs: seq<string>, reason: string)

  datatype V2Node = V2Node(id: string, confidence: real)

  datatype V2Edge = V2Edge(id: string, source: string, target: string, kind: string, relation: string,
                           medium: string, explanation: string, confidence: real)

  datatype TopologyV2 = TopologyV2(schema: string, nodes: seq<V2Node>, edges: seq<V2Edge>)

  datatype Summary = Summary(deviceCount: int, edgeCount: int, evidenceCount: int, highConfidenceEdges: int,
                             inferredOnly: bool)

  datatype Report = Report(
    schema: string, devices: seq<Device>, edges: seq<Edge>, evidence: seq<Evidence>,
    registry: seq<RegistryItem>, topology: Option<TopologyV2>, summary: Summary)

  // ---- tables by edge type ----

  predicate IsPhysicalEvidenceEdge(t: EdgeType) {
    t.DirectLLDP? || t.DirectCDP? || t.SNMPBridge?
  }

  /** The name Go compares edge types by. */
  function TypeName(t: EdgeType): string {
    match t
    case DirectLLDP => "direct_lldp"
    case DirectCDP => "direct_cdp"
    case SNMPBridge => "snmp_bridge"
    case RouteHop => "route_hop"
    case InferredL2 => "inferred_l2"
    case GatewayDefault => "gateway_default"
    case Other(n) => n
  }

  /** The names edges of equal confidence are ordered by. */
  lemma TypeNamesSpelled()
    ensures TypeName(DirectCDP) == "direct_cdp" && TypeName(DirectLLDP) == "direct_lldp"
    ensures TypeName(GatewayDefault) == "gateway_default" && TypeName(InferredL2) == "inferred_l2"
    ensures TypeName(RouteHop) == "route_hop" && TypeName(SNMPBridge) == "snmp_bridge"
  {
  }

  function ShortEdgeType(t: EdgeType): string {
    match t
    case DirectLLDP => "lldp"
    case DirectCDP => "cdp"
    case SNMPBridge => "snmp"
    case RouteHop => "route"
    case InferredL2 => "l2"
    case GatewayDefault => "gw"
    case Other(_) => "x"
  }

  function EdgeLayer(t: EdgeType): string {
    match t
    case DirectLLDP | DirectCDP | SNMPBridge | InferredL2 => "L2"
    case RouteHop | GatewayDefault => "L3"
    case Other(_) => "unknown"
  }

  function EdgeRelationship(t: EdgeType): string {
    match t
    case DirectLLDP => "lldp_neighbor"
    case DirectCDP => "cdp_neighbor"
    case SNMPBridge => "snmp_bridge_fdb"
    case RouteHop => "traceroute_hop"
    case GatewayDefault => "default_gateway"
    case InferredL2 => "same_subnet"
    case Other(_) => "unknown"
  }

  function EdgeProofSource(t: EdgeType): string {
    match t
    case DirectLLDP => "lldp"
    case DirectCDP => "cdp"
    case SNMPBridge => "snmp_bridge_fdb"
    case RouteHop => "traceroute"
    case GatewayDefault => "route_table"
    case InferredL2 => "same_subnet_arp_ping"
    case Other(_) => "unknown"
  }

  predicate EdgeInferred(t: EdgeType) {
    !(IsPhysicalEvidenceEdge(t) || t.RouteHop?)
  }

  function EdgeLineStyle(t: EdgeType, confidence: real): string {
    if IsPhysicalEvidenceEdge(t) then "solid"
    else if t.InferredL2? || confidence < 0.50 then "dotted"
    else "dashed"
  }

  function BaseConfidence(t: EdgeType): real {
    match t
    case DirectLLDP | DirectCDP => 0.95
    case SNMPBridge => 0.80
    case RouteHop => 0.60
    case InferredL2 => 0.40
    case GatewayDefault => 0.30
    case Other(_) => 0.0
  }

  function MaxConfidence(t: EdgeType): real {
    match t
    case DirectLLDP | DirectCDP => 0.98
    case SNMPBridge => 0.80
    case RouteHop => 0.60
    case InferredL2 => 0.50
    case GatewayDefault => 0.30
    case Other(_) => 0.0
  }

  function ClampConfidence(t: EdgeType, c: real): real {
    if c < 0.0 then 0.0 else if c > MaxConfidence(t) then MaxConfidence(t) else c
  }

  function ConfidenceLabel(c: real): Label {
    if c >= 0.90 then VeryHigh
    else if c >= 0.70 then High
    else if c >= 0.45 then Medium
    else if c >= 0.25 then Low
    else VeryLow
  }

  function EdgeID(source: string, target: string, t: EdgeType): string {
    "edge-" + source + "--" + target + "--" + ShortEdgeType(t)
  }

  /** The edge constructor: the type's confidence unless a positive one overrides it, clamped to the
      type's ceiling, and the evidence ids once each in order. */
  function NewEdge(source: string, target: string, t: EdgeType, reason: string, override: real,
                   evidenceIDs: seq<string>): Edge {
    var c := ClampConfidence(t, if override > 0.0 then override else BaseConfidence(t));
    Edge(EdgeID(source, target, t), source, target, t, EdgeLayer(t), EdgeRelationship(t),
         IsPhysicalEvidenceEdge(t), EdgeInferred(t), c, ConfidenceLabel(c), EdgeProofSource(t), EdgeLineStyle(t, c),
         SortedSet(evidenceIDs), reason)
  }

  // ---- inference and proof ----

  /** Whatever confidence a caller asks for: only proving types are marked physical and drawn solid, and an
      inferred edge never reaches the high labels. */
  lemma InferenceIsCapped(e: Edge, s: string, t: string, kind: EdgeType, reason: string, override: real,
                          ids: seq<string>)
    requires e == NewEdge(s, t, kind, reason, override, ids)
    ensures 0.0 <= e.confidence <= 0.98
    ensures e.physical <==> e.lineStyle == "solid"
    ensures !e.physical ==> e.confidence <= 0.60
    ensures e.inferred ==> !e.physical && e.confidence <= 0.50 && e.confidenceLabel in {Medium, Low, VeryLow}
  {
    assert "dotted"[0] != "solid"[0] && "dashed"[0] != "solid"[0];
  }

  /** An inferred edge stays below a proving one exactly when nobody asked for a proving edge no better than it:
      a positive override lowers the proving edge as far as it says. */
  lemma InferenceBelowProofExactly(
    inferred: EdgeType, proving: EdgeType, asked: real, override: real,
    s: string, t: string, s': string, t': string, ids: seq<string>, ids': seq<string>)
    requires EdgeInferred(inferred) && IsPhysicalEvidenceEdge(proving)
    ensures var low := NewEdge(s, t, inferred, "", asked, ids).confidence;
            low < NewEdge(s', t', proving, "", override, ids').confidence <==> !(0.0 < override <= low)
  {
  }

  /** No inferred edge whatever reaches a proving edge exactly when the latter keeps its default confidence or is
      asked for more than the inferred type may ever have. */
  lemma InferenceNeverReachesProofExactly(inferred: EdgeType, proving: EdgeType, override: real)
    requires EdgeInferred(inferred) && IsPhysicalEvidenceEdge(proving)
    ensures (forall asked: real :: Asked(inferred, asked) < Asked(proving, override)) <==>
            !(0.0 < override <= MaxConfidence(inferred))
  {
    if 0.0 < override <= MaxConfidence(inferred) {
      assert Asked(inferred, override) == Asked(proving, override);
    }
  }

  /** The confidence an edge of the type gets when its caller asks for `override`. */
  function Asked(t: EdgeType, override: real): real {
    NewEdge("", "", t, "", override, []).confidence
  }

  /** What each type gets unasked, and the most it gets. */
  lemma UsualAndMost()
    ensures Asked(DirectLLDP, 0.0) == Asked(DirectCDP, 0.0) == 0.95 && Asked(SNMPBridge, 0.0) == 0.80
    ensures Asked(RouteHop, 0.0) == 0.60 && Asked(InferredL2, 0.0) == 0.40 && Asked(GatewayDefault, 0.0) == 0.30
    ensures Asked(DirectLLDP, 1.0) == Asked(DirectCDP, 1.0) == 0.98 && Asked(SNMPBridge, 1.0) == 0.80
    ensures Asked(RouteHop, 1.0) == 0.60 && Asked(InferredL2, 1.0) == 0.50 && Asked(GatewayDefault, 1.0) == 0.30
  {
  }

  /** A cautious LLDP report ends below a subnet guess. */
  lemma LowOverrideExample()
    ensures Asked(DirectLLDP, 0.1) < Asked(InferredL2, 0.0)
  {
  }

  // ---- edge ids ----

  /** The separator after `s` can be mistaken for one inside `s'`. */
  predicate Confusable(s: string, s': string) {
    s' == s + "-" || s + "--" <= s'
  }

  lemma ShortTypesDiffer(t: EdgeType, u: EdgeType)
    requires ShortEdgeType(t) == ShortEdgeType(u)
    ensures t == u || (t.Other? && u.Other?)
  {
    var s, r := ShortEdgeType(t), ShortEdgeType(u);
    assert |s| == |r| && s[0] == r[0];
  }

  lemma NoDashInType(t: EdgeType)
    ensures ShortEdgeType(t) != "" && '-' !in ShortEdgeType(t)
  {
  }

  lemma DashInside(a: string, b: string, x: string, y: string)
    requires |a| < |b| && a + "-" + x == b + "-" + y
    ensures '-' in x
  {
    var s := a + "-" + x;
    assert x[|b| - |a| - 1] == s[|b|] == (b + "-" + y)[|b|] == '-';
  }

  /** What follows the last dash is determined by the whole. */
  lemma LastPartUnique(a: string, b: string, x: string, y: string)
    requires '-' !in x && '-' !in y && a + "-" + x == b + "-" + y
    ensures a == b && x == y
  {
    var s := a + "-" + x;
    if |a| < |b| {
      DashInside(a, b, x, y);
    } else if |b| < |a| {
      DashInside(b, a, y, x);
    } else {
      assert a == s[..|a|] == b && x == s[|a| + 1..] == y;
    }
  }

  lemma EndsOf(s: string, t: string, k: EdgeType)
    ensures EdgeID(s, t, k) == ("edge-" + s + "--" + t + "-") + "-" + ShortEdgeType(k)
    ensures ("edge-" + s + "--" + t + "-")[5..][..|s| + 2 + |t|] == s + "--" + t
  {
    assert "edge-" + s + "--" + t + "-" == "edge-" + (s + "--" + t) + "-";
  }

  /** An id determines the type and the two ends up to where one stops and the other starts. */
  lemma SameIDExactly(s: string, t: string, k: EdgeType, s': string, t': string, k': EdgeType)
    ensures EdgeID(s, t, k) == EdgeID(s', t', k') <==>
            s + "--" + t == s' + "--" + t' && ShortEdgeType(k) == ShortEdgeType(k')
  {
    EndsOf(s, t, k);
    EndsOf(s', t', k');
    NoDashInType(k);
    NoDashInType(k');
    var a, b := "edge-" + s + "--" + t + "-", "edge-" + s' + "--" + t' + "-";
    if EdgeID(s, t, k) == EdgeID(s', t', k') {
      LastPartUnique(a, b, ShortEdgeType(k), ShortEdgeType(k'));
      assert |a| == |s| + |t| + 8 && |b| == |s'| + |t'| + 8;
    } else if s + "--" + t == s' + "--" + t' {
      assert a == "edge-" + (s + "--" + t) + "-" && b == "edge-" + (s' + "--" + t') + "-";
    }
  }

  lemma LongerSourceConfused(s: string, t: string, s': string, t': string)
    requires |s| < |s'| && s + "--" + t == s' + "--" + t'
    ensures Confusable(s, s')
  {
    var whole := s + "--" + t;
    assert whole[..|s'|] == s' && whole[..|s|] == s;
    assert whole[|s|] == '-' && whole[|s| + 1] == '-';
    if |s'| == |s| + 1 {
      assert s' == whole[..|s|] + [whole[|s|]];
    } else {
      assert s'[..|s| + 2] == whole[..|s| + 2] == s + "--";
    }
  }

  /** Confusable sources do share ids: for any target of the longer one there is a target of the shorter. */
  lemma ConfusedSourcesCollide(s: string, s': string, t': string, k: EdgeType) returns (t: string)
    requires Confusable(s, s')
    ensures s != s' && EdgeID(s, t, k) == EdgeID(s', t', k)
  {
    if s' == s + "-" {
      t := "-" + t';
      assert s + "--" + t == s + "---" + t' == s' + "--" + t';
    } else {
      t := s'[|s| + 2..] + "--" + t';
      assert s' == s + "--" + s'[|s| + 2..];
      assert s + "--" + t == s' + "--" + t';
    }
    SameIDExactly(s, t, k, s', t', k);
  }

  /** Ids tell edges from these sources apart, whatever the targets; types outside the closed set all read alike. */
  ghost predicate TellsApart(sources: set<string>) {
    forall s, t, k, s', t', k' | s in sources && s' in sources && EdgeID(s, t, k) == EdgeID(s', t', k') ::
      s == s' && t == t' && (k == k' || (k.Other? && k'.Other?))
  }

  lemma SameIDConfuses(s: string, t: string, k: EdgeType, s': string, t': string, k': EdgeType)
    requires EdgeID(s, t, k) == EdgeID(s', t', k')
    ensures Confusable(s, s') || Confusable(s', s) || (s == s' && t == t')
    ensures k == k' || (k.Other? && k'.Other?)
  {
    SameIDExactly(s, t, k, s', t', k');
    ShortTypesDiffer(k, k');
    if |s| < |s'| {
      LongerSourceConfused(s, t, s', t');
    } else if |s'| < |s| {
      LongerSourceConfused(s', t', s, t);
    } else {
      var whole := s + "--" + t;
      assert s == whole[..|s|] == s' && t == whole[|s| + 2..] == t';
    }
  }

  /** Edge ids are injective on a set of sources exactly when no source is another followed by a dash, or
      continues another by a double dash. Targets may contain anything. */
  lemma EdgeIDInjectiveExactly(sources: set<string>)
    ensures TellsApart(sources) <==> forall s, s' | s in sources && s' in sources :: !Confusable(s, s')
  {
    if TellsApart(sources) {
      forall s, s' | s in sources && s' in sources ensures !Confusable(s, s') {
        if Confusable(s, s') {
          var t := ConfusedSourcesCollide(s, s', "", RouteHop);
        }
      }
    }
    if forall s, s' | s in sources && s' in sources :: !Confusable(s, s') {
      forall s, t, k, s', t', k' | s in sources && s' in sources && EdgeID(s, t, k) == EdgeID(s', t', k')
        ensures s == s' && t == t' && (k == k' || (k.Other? && k'.Other?))
      {
        SameIDConfuses(s, t, k, s', t', k');
      }
    }
  }

  // ---- ids that are safe by themselves ----

  /** Two dashes at `i`. */
  predicate DashesAt(s: string, i: nat) {
    i + 1 < |s| && s[i] == '-' && s[i + 1] == '-'
  }

  /** A device id whose end can be told from the separator after it. */
  ghost predicate Separable(id: string) {
    (forall i: nat :: !DashesAt(id, i)) && (id != "" ==> id[|id| - 1] != '-')
  }

  lemma ConfusableNotSeparable(s: string, s': string)
    requires Confusable(s, s')
    ensures !Separable(s')
  {
    if s' == s + "-" {
      assert s'[|s'| - 1] == '-';
    } else {
      assert s'[..|s| + 2] == s + "--";
      assert DashesAt(s', |s|);
    }
  }

  /** The ids no other source can be confused with as their beginning: exactly those without a double dash
      and without a dash at the end. */
  lemma SeparableExactly(s': string)
    ensures Separable(s') <==> forall s :: !Confusable(s, s')
  {
    if Separable(s') {
      forall s ensures !Confusable(s, s') {
        if Confusable(s, s') {
          ConfusableNotSeparable(s, s');
        }
      }
    } else if s' != "" && s'[|s'| - 1] == '-' {
      assert Confusable(s'[..|s'| - 1], s');
    } else {
      var i: nat :| DashesAt(s', i);
      assert s'[..i] + "--" == s'[..i + 2] <= s';
      assert Confusable(s'[..i], s');
    }
  }

  /** Edge ids are injective on sources that contain no double dash and do not end in a dash. */
  lemma EdgeIDInjective(s: string, t: string, k: EdgeType, s': string, t': string, k': EdgeType)
    requires Separable(s) && Separable(s') && EdgeID(s, t, k) == EdgeID(s', t', k')
    ensures s == s' && t == t' && (k == k' || (k.Other? && k'.Other?))
  {
    SeparableExactly(s);
    SeparableExactly(s');
    EdgeIDInjectiveExactly({s, s'});
  }

  /** A dash at the end of an id is enough to make two different edges share an id. */
  lemma TrailingDashCollides(t: EdgeType)
    ensures EdgeID("a-", "b", t) == EdgeID("a", "-b", t)
  {
    assert "a-" + "--" + "b" == "a" + "--" + "-b";
  }
}
