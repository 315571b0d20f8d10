/** The rating graph a mechanism records and the two mutual-rating detectors
    that read it. */
module TrustGraph {

  import opened Parties

  datatype Edge = Edge(from: Party, to: Party)

  datatype Graph = Graph(nodes: set<Party>,
                         outgoing: map<Party, set<Party>>,
                         reciprocalPartners: map<Party, nat>,
                         undirected: map<Party, set<Party>>)

  function Lookup(m: map<Party, set<Party>>, n: Party): set<Party>
  {
    if n in m then m[n] else {}
  }

  /** Undirected neighbours; a node with no edge has no entry. */
  function Adj(g: Graph, n: Party): set<Party>
  {
    Lookup(g.undirected, n)
  }

  // ---- what an edge list means ----

  function Targets(edges: seq<Edge>, n: Party): set<Party>
  {
    set e | e in edges && e.from == n :: e.to
  }

  function Sources(edges: seq<Edge>, n: Party): set<Party>
  {
    set e | e in edges && e.to == n :: e.from
  }

  /** Agents that `n` rated and that rated `n` back. */
  function Mutual(edges: seq<Edge>, n: Party): set<Party>
  {
    Targets(edges, n) * Sources(edges, n)
  }

  function Endpoints(edges: seq<Edge>): set<Party>
  {
    (set e | e in edges :: e.from) + (set e | e in edges :: e.to)
  }

  /** `g` is the graph of exactly these edges over these nodes. */
  ghost predicate Represents(g: Graph, edges: seq<Edge>, nodes: set<Party>)
  {
    && g.nodes == nodes + Endpoints(edges)
    && (forall n :: Lookup(g.outgoing, n) == Targets(edges, n))
    && (forall n :: Adj(g, n) == Targets(edges, n) + Sources(edges, n))
    && g.reciprocalPartners.Keys == g.nodes
    && (forall n :: n in g.nodes ==> g.reciprocalPartners[n] == |Mutual(edges, n)|)
  }

  /** What the peeling detector needs of a graph. */
  ghost predicate Symmetric(g: Graph)
  {
    && (forall n :: Adj(g, n) <= g.nodes)
    && (forall a, b :: b in Adj(g, a) ==> a in Adj(g, b))
  }

  lemma RepresentedIsSymmetric(g: Graph, edges: seq<Edge>, nodes: set<Party>)
    requires Represents(g, edges, nodes)
    ensures Symmetric(g)
  {
    forall a, b | b in Adj(g, a)
      ensures a in Adj(g, b) && b in g.nodes
    {
      if b in Targets(edges, a) {
        assert Edge(a, b) in edges;
        assert a in Sources(edges, b);
      } else {
        assert Edge(b, a) in edges;
        assert a in Targets(edges, b);
      }
    }
  }

  lemma ExtendEdges(es: seq<Edge>, e: Edge, n: Party)
    ensures Targets(es + [e], n) == Targets(es, n) + (if n == e.from then {e.to} else {})
    ensures Sources(es + [e], n) == Sources(es, n) + (if n == e.to then {e.from} else {})
  {
    assert forall x :: x in es + [e] <==> x in es || x == e;
    assert n == e.from ==> e.to in Targets(es + [e], n);
    assert n == e.to ==> e.from in Sources(es + [e], n);
  }

  lemma ExtendEndpoints(es: seq<Edge>, e: Edge)
    ensures Endpoints(es + [e]) == Endpoints(es) + {e.from} + {e.to}
  {
    assert forall x :: x in es + [e] <==> x in es || x == e;
    assert e in es + [e];
  }

  lemma SourceIff(edges: seq<Edge>, n: Party, m: Party)
    ensures m in Sources(edges, n) <==> Edge(m, n) in edges
    ensures m in Targets(edges, n) <==> Edge(n, m) in edges
  {
  }

  /** Add `member` to the set stored under `key`, creating it when absent. */
  function AddTo(m: map<Party, set<Party>>, key: Party, member: Party): (r: map<Party, set<Party>>)
    ensures forall n :: Lookup(r, n) == Lookup(m, n) + (if n == key then {member} else {})
  {
    m[key := Lookup(m, key) + {member}]
  }

  /** The three growing views hold exactly the edges seen so far. */
  ghost predicate Views(outgoing: map<Party, set<Party>>, undirected: map<Party, set<Party>>, nodeSet: set<Party>,
                        nodes: set<Party>, seen: seq<Edge>)
  {
    && nodeSet == nodes + Endpoints(seen)
    && (forall n :: Lookup(outgoing, n) == Targets(seen, n))
    && (forall n :: Lookup(undirected, n) == Targets(seen, n) + Sources(seen, n))
  }

  lemma ViewsGrowAt(outgoing: map<Party, set<Party>>, undirected: map<Party, set<Party>>,
                    seen: seq<Edge>, e: Edge, n: Party)
    requires Lookup(outgoing, n) == Targets(seen, n)
    requires Lookup(undirected, n) == Targets(seen, n) + Sources(seen, n)
    ensures Lookup(AddTo(outgoing, e.from, e.to), n) == Targets(seen + [e], n)
    ensures Lookup(AddTo(AddTo(undirected, e.from, e.to), e.to, e.from), n)
         == Targets(seen + [e], n) + Sources(seen + [e], n)
  {
    ExtendEdges(seen, e, n);
    var there := if n == e.from then {e.to} else {};
    var back := if n == e.to then {e.from} else {};
    assert Lookup(AddTo(AddTo(undirected, e.from, e.to), e.to, e.from), n) == Lookup(undirected, n) + there + back;
  }

  lemma ViewsGrow(outgoing: map<Party, set<Party>>, undirected: map<Party, set<Party>>, nodeSet: set<Party>,
                  nodes: set<Party>, seen: seq<Edge>, e: Edge)
    requires Views(outgoing, undirected, nodeSet, nodes, seen)
    ensures Views(AddTo(outgoing, e.from, e.to), AddTo(AddTo(undirected, e.from, e.to), e.to, e.from),
                  nodeSet + {e.from} + {e.to}, nodes, seen + [e])
  {
    ExtendEndpoints(seen, e);
    forall n
      ensures Lookup(AddTo(outgoing, e.from, e.to), n) == Targets(seen + [e], n)
      ensures Lookup(AddTo(AddTo(undirected, e.from, e.to), e.to, e.from), n)
           == Targets(seen + [e], n) + Sources(seen + [e], n)
    {
      ViewsGrowAt(outgoing, undirected, seen, e, n);
    }
  }

  /** Build the adjacency views the detectors share. */
  method BuildGraph(edges: seq<Edge>, nodes: set<Party>) returns (g: Graph)
    ensures Represents(g, edges, nodes)
    ensures Symmetric(g)
  {
    var outgoing, undirected, nodeSet := CollectViews(edges, nodes);
    var edgeSet := set e | e in edges;
    var partners := ReciprocalPartners(edges, edgeSet, outgoing, nodeSet);
    g := Graph(nodeSet, outgoing, partners, undirected);
    ViewsRepresent(g, edges, nodes);
    RepresentedIsSymmetric(g, edges, nodes);
  }

  lemma ViewsRepresent(g: Graph, edges: seq<Edge>, nodes: set<Party>)
    requires Views(g.outgoing, g.undirected, g.nodes, nodes, edges)
    requires g.reciprocalPartners.Keys == g.nodes
    requires forall n :: n in g.nodes ==> g.reciprocalPartners[n] == |Mutual(edges, n)|
    ensures Represents(g, edges, nodes)
  {
    assert forall n :: Adj(g, n) == Lookup(g.undirected, n);
  }

  /** One walk over the edges fills the three growing views. */
  method CollectViews(edges: seq<Edge>, nodes: set<Party>)
    returns (outgoing: map<Party, set<Party>>, undirected: map<Party, set<Party>>, nodeSet: set<Party>)
    ensures Views(outgoing, undirected, nodeSet, nodes, edges)
  {
    outgoing, undirected, nodeSet := map[], map[], nodes;
    for i := 0 to |edges|
      invariant Views(outgoing, undirected, nodeSet, nodes, edges[..i])
    {
      var e := edges[i];
      ViewsGrow(outgoing, undirected, nodeSet, nodes, edges[..i], e);
      assert edges[..i] + [e] == edges[..i + 1];
      nodeSet := nodeSet + {e.from} + {e.to};
      outgoing := AddTo(outgoing, e.from, e.to);
      undirected := AddTo(undirected, e.from, e.to);
      undirected := AddTo(undirected, e.to, e.from);
    }
    assert edges[..|edges|] == edges;
  }

  /** How many of the nodes that `node` rated also rated it. */
  method CountMutual(edges: seq<Edge>, edgeSet: set<Edge>, rated: set<Party>, node: Party) returns (count: nat)
    requires edgeSet == set e | e in edges
    requires rated == Targets(edges, node)
    ensures count == |Mutual(edges, node)|
  {
    count := 0;
    ghost var found: set<Party> := {};
    var targets := Spread(rated);
    for j := 0 to |targets|
      invariant count == |found|
      invariant forall m :: m in found <==> m in targets[..j] && m in Sources(edges, node)
    {
      var target := targets[j];
      SourceIff(edges, node, target);
      assert target !in targets[..j];
      if Edge(target, node) in edgeSet {
        count := count + 1;
        found := found + {target};
      }
      assert targets[..j + 1] == targets[..j] + [target];
    }
    assert targets[..|targets|] == targets;
    assert found == Mutual(edges, node);
  }

  /** For every node, how many of the nodes it rated also rated it. */
  method ReciprocalPartners(edges: seq<Edge>, edgeSet: set<Edge>, outgoing: map<Party, set<Party>>, nodeSet: set<Party>)
    returns (partners: map<Party, nat>)
    requires edgeSet == set e | e in edges
    requires forall n :: Lookup(outgoing, n) == Targets(edges, n)
    ensures partners.Keys == nodeSet
    ensures forall n :: n in nodeSet ==> partners[n] == |Mutual(edges, n)|
  {
    partners := map[];
    var order := Spread(nodeSet);
    for i := 0 to |order|
      invariant forall n :: n in partners <==> n in order[..i]
      invariant forall n :: n in partners ==> partners[n] == |Mutual(edges, n)|
    {
      var node := order[i];
      var count := CountMutual(edges, edgeSet, Lookup(outgoing, node), node);
      partners := partners[node := count];
      assert order[..i + 1] == order[..i] + [node];
    }
    assert order[..|order|] == order;
  }

  /** Flag agents whose outgoing ratings are mostly reciprocated. */
  method DetectByReciprocity(g: Graph, threshold: real) returns (flagged: set<Party>)
    ensures flagged == set n | n in g.nodes && MostlyReciprocated(g, n, threshold)
  {
    flagged := {};
    var order := Spread(g.nodes);
    for i := 0 to |order|
      invariant forall n :: n in flagged <==> n in order[..i] && MostlyReciprocated(g, n, threshold)
    {
      var node := order[i];
      var out := Lookup(g.outgoing, node);
      assert order[..i + 1] == order[..i] + [node];
      if |out| == 0 {
        continue;
      }
      var reciprocal := if node in g.reciprocalPartners then g.reciprocalPartners[node] else 0;
      if (reciprocal as real) / (|out| as real) >= threshold {
        flagged := flagged + {node};
      }
    }
    assert order[..|order|] == order;
  }

  predicate MostlyReciprocated(g: Graph, n: Party, threshold: real)
  {
    && Lookup(g.outgoing, n) != {}
    && (Partners(g, n) as real) / (|Lookup(g.outgoing, n)| as real) >= threshold
  }

  function Partners(g: Graph, n: Party): nat
  {
    if n in g.reciprocalPartners then g.reciprocalPartners[n] else 0
  }

  /** Flag agents with at least `minPartners` mutual-rating relationships. */
  method DetectByMutualDegree(g: Graph, minPartners: int) returns (flagged: set<Party>)
    ensures flagged == set n | n in g.nodes && Partners(g, n) >= minPartners
  {
    flagged := {};
    var order := Spread(g.nodes);
    for i := 0 to |order|
      invariant forall n :: n in flagged <==> n in order[..i] && Partners(g, n) >= minPartners
    {
      var node := order[i];
      assert order[..i + 1] == order[..i] + [node];
      if Partners(g, node) >= minPartners {
        flagged := flagged + {node};
      }
    }
    assert order[..|order|] == order;
  }
}
