/** The evidence store and the edge graph the topology builder fills. */
module TopologyGraph {
  import opened Sorting
  import opened Text
  import opened TopologyModel

  // ---- evidence ----

  function EvID(n: nat): string {
    "ev-" + Decimal(n)
  }

  lemma EvIDInjective(m: nat, n: nat)
    requires EvID(m) == EvID(n)
    ensures m == n
  {
    assert EvID(m)[3..] == Decimal(m) && EvID(n)[3..] == Decimal(n);
    DecimalInjective(m, n);
  }

  /** Records numbered "ev-1", "ev-2", ... in creation order. */
  ghost predicate Numbered(records: seq<Evidence>) {
    forall i | 0 <= i < |records| :: records[i].id == EvID(i + 1)
  }

  lemma NumberedDistinct(records: seq<Evidence>, i: nat, j: nat)
    requires Numbered(records) && i < |records| && j < |records| && records[i].id == records[j].id
    ensures i == j
  {
    EvIDInjective(i + 1, j + 1);
  }

  class EvidenceStore {
    var records: seq<Evidence>
    var minted: nat

    ghost predicate Valid()
      reads this
    {
      minted == |records| && Numbered(records)
    }

    constructor ()
      ensures Valid() && records == []
    {
      records, minted := [], 0;
    }

    method Add(kind: string, source: string) returns (id: string)
      requires Valid()
      modifies this
      ensures Valid()
      ensures id == EvID(old(|records|) + 1)
      ensures records == old(records) + [Evidence(id, kind, source)]
    {
      minted := minted + 1;
      id := EvID(minted);
      records := records + [Evidence(id, kind, source)];
    }
  }

  // ---- the graph ----

  /** An edge joins two different known devices. */
  predicate Joins(deviceIDs: set<string>, e: Edge) {
    e.source != e.target && e.source in deviceIDs && e.target in deviceIDs
  }

  function Admit(deviceIDs: set<string>, edges: map<string, Edge>, e: Edge): map<string, Edge> {
    if !Joins(deviceIDs, e) then edges
    else if e.id in edges && e.confidence <= edges[e.id].confidence then edges
    else edges[e.id := e]
  }

  function AdmitAll(deviceIDs: set<string>, es: seq<Edge>): map<string, Edge> {
    if es == [] then map[] else Admit(deviceIDs, AdmitAll(deviceIDs, es[..|es| - 1]), es[|es| - 1])
  }

  /** `es[k]` is the first edge under its id, among those that join known devices, to attain the
      highest confidence offered for that id. */
  ghost predicate FirstMax(deviceIDs: set<string>, es: seq<Edge>, id: string, k: nat) {
    && k < |es| && Joins(deviceIDs, es[k]) && es[k].id == id
    && forall j | 0 <= j < |es| && Joins(deviceIDs, es[j]) && es[j].id == id ::
         es[j].confidence <= es[k].confidence && (j < k ==> es[j].confidence < es[k].confidence)
  }

  /** After any sequence of insertions an id is present exactly when some edge with it was admissible,
      and it holds the first one of highest confidence. */
  lemma {:induction false} GraphKeepsFirstMax(deviceIDs: set<string>, es: seq<Edge>, id: string)
    ensures id in AdmitAll(deviceIDs, es) <==> exists k | 0 <= k < |es| :: Joins(deviceIDs, es[k]) && es[k].id == id
    ensures id in AdmitAll(deviceIDs, es) ==>
      exists k: nat :: FirstMax(deviceIDs, es, id, k) && AdmitAll(deviceIDs, es)[id] == es[k]
  {
    if es != [] {
      var n := |es| - 1;
      var init, last := es[..n], es[n];
      var before := AdmitAll(deviceIDs, init);
      GraphKeepsFirstMax(deviceIDs, init, id);
      assert forall k | 0 <= k < n :: init[k] == es[k];
      if id in before {
        var k: nat :| FirstMax(deviceIDs, init, id, k) && before[id] == init[k];
        assert es[k] == init[k];
        if Joins(deviceIDs, last) && last.id == id && last.confidence > before[id].confidence {
          assert FirstMax(deviceIDs, es, id, n);
        } else {
          assert FirstMax(deviceIDs, es, id, k);
        }
      } else if Joins(deviceIDs, last) && last.id == id {
        assert forall j | 0 <= j < n :: !(Joins(deviceIDs, es[j]) && es[j].id == id) by {
          forall j | 0 <= j < n ensures !(Joins(deviceIDs, es[j]) && es[j].id == id) { assert init[j] == es[j]; }
        }
        assert FirstMax(deviceIDs, es, id, n);
      }
    }
  }

  /** Every stored edge sits under its own id. */
  ghost predicate Keyed(edges: map<string, Edge>) {
    forall id | id in edges :: edges[id].id == id
  }

  /** The id of an edge built by NewEdge, over the closed set of types. */
  ghost predicate Canonical(e: Edge) {
    !e.kind.Other? && e.id == EdgeID(e.source, e.target, e.kind)
  }

  /** The comparison of Edges: confidence down, then type, source and target up. */
  predicate EdgeLess(a: Edge, b: Edge) {
    if a.confidence != b.confidence then a.confidence > b.confidence
    else if TypeName(a.kind) != TypeName(b.kind) then StringLess(TypeName(a.kind), TypeName(b.kind))
    else if a.source != b.source then StringLess(a.source, b.source)
    else StringLess(a.target, b.target)
  }

  lemma TypeNamesDiffer(t: EdgeType, u: EdgeType)
    requires !t.Other? && !u.Other? && TypeName(t) == TypeName(u)
    ensures t == u
  {
    assert |TypeName(t)| == |TypeName(u)|;
    assert |TypeName(t)| > 8 ==> TypeName(t)[0] == TypeName(u)[0] && TypeName(t)[8] == TypeName(u)[8];
  }

  lemma EdgeLessTransitive(a: Edge, b: Edge, c: Edge)
    requires EdgeLess(a, b) && EdgeLess(b, c)
    ensures EdgeLess(a, c)
  {
    StringsTotal({TypeName(a.kind), TypeName(b.kind), TypeName(c.kind)});
    StringsTotal({a.source, b.source, c.source});
    StringsTotal({a.target, b.target, c.target});
  }

  lemma EdgeLessTotal(a: Edge, b: Edge)
    requires Canonical(a) && Canonical(b) && a.id != b.id
    ensures EdgeLess(a, b) || EdgeLess(b, a)
  {
    StringLessTotal(TypeName(a.kind), TypeName(b.kind));
    StringLessTotal(a.source, b.source);
    StringLessTotal(a.target, b.target);
    if TypeName(a.kind) == TypeName(b.kind) {
      TypeNamesDiffer(a.kind, b.kind);
    }
  }

  ghost predicate Orderly(edges: map<string, Edge>) {
    Keyed(edges) && forall id | id in edges :: Canonical(edges[id])
  }

  lemma EdgesTotal(edges: map<string, Edge>)
    requires Orderly(edges)
    ensures TotalOn(EdgeLess, edges.Values)
  {
    forall a | a in edges.Values ensures !EdgeLess(a, a) { StringLessIrreflexive(a.target); }
    forall a, b | a in edges.Values && b in edges.Values && a != b ensures EdgeLess(a, b) || EdgeLess(b, a) {
      EdgeLessTotal(a, b);
    }
    forall a, b, c | a in edges.Values && b in edges.Values && c in edges.Values && EdgeLess(a, b) && EdgeLess(b, c)
      ensures EdgeLess(a, c)
    {
      EdgeLessTransitive(a, b, c);
    }
  }

  /** `out` is the stored edges in order, each once. */
  ghost predicate SortedView(edges: map<string, Edge>, out: seq<Edge>) {
    Elements(out) == edges.Values && Ascending(EdgeLess, out)
  }

  /** The order of the map iteration behind Edges cannot show: the sorted view is unique. */
  lemma SortedViewUnique(edges: map<string, Edge>, a: seq<Edge>, b: seq<Edge>)
    requires Orderly(edges) && SortedView(edges, a) && SortedView(edges, b)
    ensures a == b
  {
    EdgesTotal(edges);
    AscendingUnique(EdgeLess, a, b);
  }

  class Graph {
    const deviceIDs: set<string>
    var edges: map<string, Edge>

    constructor (ids: seq<string>)
      ensures deviceIDs == Elements(ids) && edges == map[]
    {
      deviceIDs := Elements(ids);
      edges := map[];
    }

    method AddEdge(e: Edge) returns (stored: bool)
      modifies this`edges
      ensures edges == Admit(deviceIDs, old(edges), e)
      ensures stored <==> Joins(deviceIDs, e) && (e.id in old(edges) ==> e.confidence > old(edges)[e.id].confidence)
      ensures old(Orderly(edges)) && Canonical(e) ==> Orderly(edges)
    {
      if e.source == e.target {
        return false;
      }
      if e.source !in deviceIDs || e.target !in deviceIDs {
        return false;
      }
      if e.id in edges {
        if e.confidence <= edges[e.id].confidence {
          return false;
        }
      }
      edges := edges[e.id := e];
      return true;
    }

    method Edges() returns (out: seq<Edge>)
      ensures |out| == |edges| && Elements(out) == edges.Values
      ensures Orderly(edges) ==> SortedView(edges, out)
    {
      var keys := InSomeOrder(edges.Keys);
      assert forall i | 0 <= i < |keys| :: keys[i] in Elements(keys);
      out := EdgesUnder(edges, keys);
      EdgesUnderAll(edges, keys);
      if Orderly(edges) {
        EdgesTotal(edges);
        SortAscending(EdgeLess, out);
      }
      SortKeepsElements(EdgeLess, out);
      out := Sort(EdgeLess, out);
    }
  }

  function EdgesUnder(edges: map<string, Edge>, keys: seq<string>): (out: seq<Edge>)
    requires forall i | 0 <= i < |keys| :: keys[i] in edges
    ensures |out| == |keys| && forall i | 0 <= i < |keys| :: out[i] == edges[keys[i]]
  {
    if keys == [] then [] else [edges[keys[0]]] + EdgesUnder(edges, keys[1..])
  }

  lemma EdgesUnderAll(edges: map<string, Edge>, keys: seq<string>)
    requires Elements(keys) == edges.Keys && forall i | 0 <= i < |keys| :: keys[i] in edges
    ensures Elements(EdgesUnder(edges, keys)) == edges.Values
    ensures Keyed(edges) && Distinct(keys) ==> Distinct(EdgesUnder(edges, keys))
  {
    var out := EdgesUnder(edges, keys);
    forall e | e in edges.Values ensures e in out {
      var id :| id in edges && edges[id] == e;
      assert id in Elements(keys);
      var i :| 0 <= i < |keys| && keys[i] == id;
      assert out[i] == e;
    }
  }
}
