/** What the three detectors see of a ring that is rated all round and rates
    nobody else: each of them finds the whole ring or none of it, and which of
    the two depends on its threshold and the ring's size alone. */
module RingDetection {

  import opened Parties
  import opened Spending
  import opened TrustGraph
  import KCore

  datatype DetectorResult = DetectorResult(flagged: nat, truePositives: nat, falsePositives: nat,
                                           falseNegatives: nat, precision: real, recall: real, f1: real)

  datatype Detection = Detection(reciprocity: DetectorResult, mutualDegree: DetectorResult,
                                 kCore: DetectorResult, ensemble: DetectorResult)

  // ---- the ring among the edges ----

  /** Every recorded edge stays inside the ring or inside the honest crowd. */
  predicate Separated(edges: seq<Edge>, size: nat)
  {
    forall e :: e in edges ==>
      e.from != e.to && (InBlock(e.from, 0, size) <==> InBlock(e.to, 0, size))
  }

  /** `from` has rated every other member before `to`. */
  predicate RatedBelow(edges: seq<Edge>, from: nat, to: nat)
  {
    forall t: nat :: t < to && t != from ==> Edge(Party(from), Party(t)) in edges
  }

  predicate RatedAll(edges: seq<Edge>, size: nat, n: nat)
  {
    forall f: nat :: f < n ==> RatedBelow(edges, f, size)
  }

  lemma MoreEdgesKeep(edges: seq<Edge>, edges': seq<Edge>, size: nat, n: nat)
    requires edges <= edges' && RatedAll(edges, size, n)
    ensures RatedAll(edges', size, n)
  {
    forall f: nat | f < n
      ensures RatedBelow(edges', f, size)
    {
      assert RatedBelow(edges, f, size);
    }
  }

  /** The ring is rated all round, and keeps to itself. */
  predicate Closed(edges: seq<Edge>, size: nat)
  {
    Separated(edges, size) && RatedAll(edges, size, size)
  }

  function Ids(lo: int, n: nat): set<Party>
  {
    set i: nat | i < n :: Offset(lo, i)
  }

  function Offset(lo: int, i: nat): Party
  {
    Party(lo + i)
  }

  lemma {:induction false} CountIds(lo: int, n: nat)
    ensures |Ids(lo, n)| == n
  {
    if n > 0 {
      CountIds(lo, n - 1);
      assert Ids(lo, n) == Ids(lo, n - 1) + {Offset(lo, n - 1)};
    }
  }

  /** Everybody in the ring but member `i`. */
  function Peers(size: nat, i: nat): set<Party>
  {
    Ids(0, size) - {Party(i)}
  }

  lemma CountPeers(size: nat, i: nat)
    requires i < size
    ensures |Peers(size, i)| == size - 1
  {
    CountIds(0, size);
    assert Offset(0, i) in Ids(0, size);
  }

  /** A ring member rates its peers, is rated by its peers, and deals with nobody else. */
  lemma RingIsReciprocal(edges: seq<Edge>, size: nat, i: nat)
    requires Closed(edges, size) && i < size
    ensures Targets(edges, Party(i)) == Peers(size, i)
    ensures Sources(edges, Party(i)) == Peers(size, i)
    ensures Mutual(edges, Party(i)) == Peers(size, i)
  {
    forall t
      ensures t in Targets(edges, Party(i)) <==> t in Peers(size, i)
      ensures t in Sources(edges, Party(i)) <==> t in Peers(size, i)
    {
      SourceIff(edges, Party(i), t);
      PeerIff(edges, size, i, t);
    }
  }

  lemma PeerIff(edges: seq<Edge>, size: nat, i: nat, t: Party)
    requires Closed(edges, size) && i < size
    ensures Edge(Party(i), t) in edges <==> t in Peers(size, i)
    ensures Edge(t, Party(i)) in edges <==> t in Peers(size, i)
  {
    assert InBlock(Party(i), 0, size);
    if InBlock(t, 0, size) && t != Party(i) {
      assert t == Offset(0, t.id) && t in Peers(size, i);
      assert RatedBelow(edges, i, size) && RatedBelow(edges, t.id, size);
      assert Edge(Party(i), Party(t.id)) in edges && Edge(Party(t.id), Party(i)) in edges;
    }
  }

  /** A member as the graph shows it. */
  lemma MemberInGraph(g: Graph, edges: seq<Edge>, nodes: set<Party>, size: nat, i: nat)
    requires Represents(g, edges, nodes) && Ids(0, size) <= nodes
    requires Closed(edges, size) && i < size
    ensures Party(i) in g.nodes
    ensures Lookup(g.outgoing, Party(i)) == Peers(size, i)
    ensures Adj(g, Party(i)) == Peers(size, i)
    ensures Partners(g, Party(i)) == size - 1
  {
    assert Offset(0, i) in Ids(0, size);
    RingIsReciprocal(edges, size, i);
    CountPeers(size, i);
  }

  // ---- what each detector makes of it ----

  /** The whole ring is flagged if `seen`, and nobody of the ring otherwise. */
  predicate AllOrNone(flagged: set<Party>, size: nat, seen: bool)
  {
    if seen then Ids(0, size) <= flagged else Ids(0, size) !! flagged
  }

  /** Agents whose ratings are mostly returned. */
  function Reciprocating(g: Graph, threshold: real): set<Party>
  {
    set n | n in g.nodes && MostlyReciprocated(g, n, threshold)
  }

  /** Agents in many mutual ratings. */
  function Partnered(g: Graph, minPartners: int): set<Party>
  {
    set n | n in g.nodes && Partners(g, n) >= minPartners
  }

  lemma MemberReciprocates(g: Graph, edges: seq<Edge>, nodes: set<Party>, size: nat, threshold: real, i: nat)
    requires Represents(g, edges, nodes) && Ids(0, size) <= nodes
    requires Closed(edges, size) && i < size && size >= 2
    ensures MostlyReciprocated(g, Party(i), threshold) <==> threshold <= 1.0
  {
    MemberInGraph(g, edges, nodes, size, i);
    CountPeers(size, i);
    AllReturned(g, Party(i), size - 1, threshold);
  }

  lemma AllReturned(g: Graph, p: Party, n: nat, threshold: real)
    requires n >= 1 && |Lookup(g.outgoing, p)| == n && Partners(g, p) == n
    ensures MostlyReciprocated(g, p, threshold) <==> threshold <= 1.0
  {
    Itself(n as real);
  }

  lemma Itself(x: real)
    requires x > 0.0
    ensures x / x == 1.0
  {
  }

  /** Reciprocity sees the ring at every threshold it can reach, whatever the honest crowd does. */
  lemma ReciprocityFindsRing(g: Graph, edges: seq<Edge>, nodes: set<Party>, size: nat, threshold: real)
    requires Represents(g, edges, nodes) && Ids(0, size) <= nodes
    requires Closed(edges, size) && size >= 2
    ensures AllOrNone(Reciprocating(g, threshold), size, threshold <= 1.0)
  {
    forall p | p in Ids(0, size)
      ensures p in Reciprocating(g, threshold) <==> threshold <= 1.0
    {
      MemberReciprocates(g, edges, nodes, size, threshold, p.id);
      MemberInGraph(g, edges, nodes, size, p.id);
    }
  }

  /** Mutual degree sees the ring exactly when it asks for no more partners than a ring offers. */
  lemma MutualDegreeFindsRing(g: Graph, edges: seq<Edge>, nodes: set<Party>, size: nat, minPartners: int)
    requires Represents(g, edges, nodes) && Ids(0, size) <= nodes && Closed(edges, size)
    ensures AllOrNone(Partnered(g, minPartners), size, minPartners <= size - 1)
  {
    forall p | p in Ids(0, size)
      ensures p in Partnered(g, minPartners) <==> minPartners <= size - 1
    {
      MemberInGraph(g, edges, nodes, size, p.id);
    }
  }

  /** The ring supports itself up to one less than its size. */
  lemma RingSupportsItself(g: Graph, edges: seq<Edge>, nodes: set<Party>, size: nat, k: int)
    requires Represents(g, edges, nodes) && Ids(0, size) <= nodes && Closed(edges, size)
    requires k <= size - 1
    ensures KCore.SelfSupporting(g, k, Ids(0, size))
  {
    forall p | p in Ids(0, size)
      ensures p in g.nodes && |Adj(g, p) * Ids(0, size)| >= k
    {
      MemberInGraph(g, edges, nodes, size, p.id);
      CountPeers(size, p.id);
      assert Adj(g, p) * Ids(0, size) == Peers(size, p.id);
    }
  }

  /** No self-supporting set that asks for more holds a ring member. */
  lemma MemberLacksSupport(g: Graph, edges: seq<Edge>, nodes: set<Party>, size: nat, k: int, i: nat, s: set<Party>)
    requires Represents(g, edges, nodes) && Ids(0, size) <= nodes && Closed(edges, size)
    requires k > size - 1 && i < size && KCore.SelfSupporting(g, k, s)
    ensures Party(i) !in s
  {
    MemberInGraph(g, edges, nodes, size, i);
    CountPeers(size, i);
    KCore.SubsetCard(Adj(g, Party(i)) * s, Adj(g, Party(i)));
  }

  /** Peeling keeps the ring exactly when the threshold is below its size, whatever the honest crowd does. */
  lemma CoreFindsRing(g: Graph, edges: seq<Edge>, nodes: set<Party>, size: nat, k: int)
    requires Represents(g, edges, nodes) && Ids(0, size) <= nodes && Closed(edges, size)
    ensures AllOrNone(KCore.Core(g, k), size, k <= size - 1)
  {
    KCore.CoreIsGreatest(g, k);
    if k <= size - 1 {
      RingSupportsItself(g, edges, nodes, size, k);
    } else {
      forall p | p in Ids(0, size)
        ensures p !in KCore.Core(g, k)
      {
        MemberLacksSupport(g, edges, nodes, size, k, p.id, KCore.Core(g, k));
      }
    }
  }

  // ---- hits and misses ----

  function Ratio(part: nat, whole: nat): real
  {
    if whole == 0 then 0.0 else (part as real) / (whole as real)
  }

  /** A detector's hits and misses against the planted ring; F1 is the share of
      hits among everything flagged and everything planted. */
  ghost predicate Evaluates(d: DetectorResult, flagged: set<Party>, planted: set<Party>)
  {
    && d.flagged == |flagged|
    && d.truePositives == |flagged * planted|
    && d.falsePositives == |flagged - planted|
    && d.falseNegatives == |planted - flagged|
    && d.precision == Ratio(d.truePositives, |flagged|)
    && d.recall == Ratio(d.truePositives, |planted|)
    && d.f1 == Ratio(2 * d.truePositives, |flagged| + |planted|)
  }

  method CountHits(flagged: set<Party>, planted: set<Party>) returns (hits: nat)
    ensures hits == |flagged * planted|
  {
    hits := 0;
    var nodes := Spread(flagged);
    ghost var hit: set<Party> := {};
    for i := 0 to |nodes|
      invariant hits == |hit|
      invariant forall n :: n in hit <==> n in nodes[..i] && n in planted
    {
      assert nodes[i] !in nodes[..i];
      assert nodes[..i + 1] == nodes[..i] + [nodes[i]];
      if nodes[i] in planted {
        hits := hits + 1;
        hit := hit + {nodes[i]};
      }
    }
    assert nodes[..|nodes|] == nodes;
    assert hit == flagged * planted;
  }

  lemma HitsAndMisses(flagged: set<Party>, planted: set<Party>)
    ensures |flagged| == |flagged * planted| + |flagged - planted|
    ensures |planted| == |flagged * planted| + |planted - flagged|
  {
    assert flagged == flagged * planted + (flagged - planted);
    assert planted == flagged * planted + (planted - flagged);
  }

  /** The harmonic mean of precision and recall. */
  function HarmonicMean(precision: real, recall: real): real
  {
    if precision + recall == 0.0 then 0.0 else (2.0 * precision * recall) / (precision + recall)
  }

  lemma HarmonicMeanIs(hits: nat, flagged: nat, planted: nat)
    requires hits <= flagged && hits <= planted
    ensures HarmonicMean(Ratio(hits, flagged), Ratio(hits, planted)) == Ratio(2 * hits, flagged + planted)
  {
    if hits > 0 {
      HarmonicMeanOf(hits as real, flagged as real, planted as real);
    }
  }

  lemma HarmonicMeanOf(t: real, f: real, p: real)
    requires t > 0.0 && f > 0.0 && p > 0.0
    ensures t / f + t / p > 0.0
    ensures (2.0 * (t / f) * (t / p)) / (t / f + t / p) == (2.0 * t) / (f + p)
  {
    var x, y := t / f, t / p;
    assert x * f == t && y * p == t && x > 0.0 && y > 0.0;
    assert (2.0 * x * y) * (f + p) == (2.0 * t) * (x + y);
    CrossDivide(2.0 * x * y, x + y, 2.0 * t, f + p);
  }

  lemma CrossDivide(a: real, b: real, c: real, d: real)
    requires b > 0.0 && d > 0.0 && a * d == c * b
    ensures a / b == c / d
  {
    var q := a / b;
    assert q * b == a;
    assert (q * d) * b == c * b;
    assert q * d == c;
  }

  method Evaluate(flagged: set<Party>, planted: set<Party>) returns (d: DetectorResult)
    ensures Evaluates(d, flagged, planted)
    ensures if flagged == {} then d.precision == 0.0
            else d.precision == (|flagged * planted| as real) / (|flagged| as real)
    ensures if planted == {} then d.recall == 0.0
            else d.recall == (|flagged * planted| as real) / (|planted| as real)
    ensures d.f1 == HarmonicMean(d.precision, d.recall)
  {
    var truePositives := CountHits(flagged, planted);
    HitsAndMisses(flagged, planted);
    var precision, recall := Ratio(truePositives, |flagged|), Ratio(truePositives, |planted|);
    HarmonicMeanIs(truePositives, |flagged|, |planted|);
    d := DetectorResult(|flagged|, truePositives, |flagged| - truePositives, |planted| - truePositives,
                        precision, recall, HarmonicMean(precision, recall));
  }

  /** The verdict on a ring of this size: everything found, or nothing. */
  predicate Finds(d: DetectorResult, size: nat, seen: bool)
  {
    && d.truePositives == (if seen then size else 0)
    && d.falseNegatives == (if seen then 0 else size)
    && d.recall == (if seen then 1.0 else 0.0)
  }

  lemma AllOrNoneCounts(flagged: set<Party>, size: nat, seen: bool)
    requires AllOrNone(flagged, size, seen)
    ensures |flagged * Ids(0, size)| == if seen then size else 0
    ensures |Ids(0, size) - flagged| == if seen then 0 else size
  {
    CountIds(0, size);
    if seen {
      assert flagged * Ids(0, size) == Ids(0, size) && Ids(0, size) - flagged == {};
    } else {
      assert flagged * Ids(0, size) == {} && Ids(0, size) - flagged == Ids(0, size);
    }
  }

  lemma RecallOf(size: nat, seen: bool)
    requires size >= 1
    ensures Ratio(if seen then size else 0, size) == if seen then 1.0 else 0.0
  {
    Itself(size as real);
  }

  lemma AllOrNoneFinds(d: DetectorResult, flagged: set<Party>, size: nat, seen: bool)
    requires Evaluates(d, flagged, Ids(0, size)) && size >= 1 && AllOrNone(flagged, size, seen)
    ensures Finds(d, size, seen)
  {
    CountIds(0, size);
    AllOrNoneCounts(flagged, size, seen);
    RecallOf(size, seen);
  }

  // ---- the three together ----

  datatype Thresholds = Thresholds(reciprocity: real, minPartners: int, core: int)

  /** The detectors' figures are the exact evaluation of what they flag. */
  ghost predicate Judges(d: Detection, g: Graph, t: Thresholds, planted: set<Party>)
  {
    && Evaluates(d.reciprocity, Reciprocating(g, t.reciprocity), planted)
    && Evaluates(d.mutualDegree, Partnered(g, t.minPartners), planted)
    && Evaluates(d.kCore, KCore.Core(g, t.core), planted)
    && Evaluates(d.ensemble, Reciprocating(g, t.reciprocity) + Partnered(g, t.minPartners) + KCore.Core(g, t.core),
                 planted)
  }

  /** Which detectors find a closed ring, decided before any graph is looked at. */
  predicate RingVerdict(d: Detection, size: nat, t: Thresholds)
  {
    && Finds(d.reciprocity, size, t.reciprocity <= 1.0)
    && Finds(d.mutualDegree, size, t.minPartners <= size - 1)
    && Finds(d.kCore, size, t.core <= size - 1)
    && Finds(d.ensemble, size, t.reciprocity <= 1.0 || t.minPartners <= size - 1 || t.core <= size - 1)
  }

  lemma JudgedRing(d: Detection, g: Graph, edges: seq<Edge>, nodes: set<Party>, size: nat, t: Thresholds)
    requires Represents(g, edges, nodes) && Ids(0, size) <= nodes
    requires Closed(edges, size) && size >= 2 && Judges(d, g, t, Ids(0, size))
    ensures RingVerdict(d, size, t)
  {
    var a, b, c := Reciprocating(g, t.reciprocity), Partnered(g, t.minPartners), KCore.Core(g, t.core);
    ReciprocityFindsRing(g, edges, nodes, size, t.reciprocity);
    MutualDegreeFindsRing(g, edges, nodes, size, t.minPartners);
    CoreFindsRing(g, edges, nodes, size, t.core);
    AllOrNoneFinds(d.reciprocity, a, size, t.reciprocity <= 1.0);
    AllOrNoneFinds(d.mutualDegree, b, size, t.minPartners <= size - 1);
    AllOrNoneFinds(d.kCore, c, size, t.core <= size - 1);
    AllOrNoneFinds(d.ensemble, a + b + c, size,
                   t.reciprocity <= 1.0 || t.minPartners <= size - 1 || t.core <= size - 1);
  }

  /** Run the three detectors and their union over the recorded graph. */
  method Detect(edges: seq<Edge>, nodes: set<Party>, size: nat, t: Thresholds) returns (d: Detection, ghost g: Graph)
    requires Ids(0, size) <= nodes
    ensures Represents(g, edges, nodes) && Judges(d, g, t, Ids(0, size))
    ensures Closed(edges, size) && size >= 2 ==> RingVerdict(d, size, t)
  {
    var planted := Ids(0, size);
    var graph := BuildGraph(edges, nodes);
    var reciprocity := DetectByReciprocity(graph, t.reciprocity);
    var mutualDegree := DetectByMutualDegree(graph, t.minPartners);
    var kCore := KCore.DetectByKCore(graph, t.core);
    d := Judge(reciprocity, mutualDegree, kCore, planted);
    g := graph;
    if Closed(edges, size) && size >= 2 {
      JudgedRing(d, g, edges, nodes, size, t);
    }
  }

  method Judge(reciprocity: set<Party>, mutualDegree: set<Party>, kCore: set<Party>, planted: set<Party>)
    returns (d: Detection)
    ensures Evaluates(d.reciprocity, reciprocity, planted)
    ensures Evaluates(d.mutualDegree, mutualDegree, planted) && Evaluates(d.kCore, kCore, planted)
    ensures Evaluates(d.ensemble, reciprocity + mutualDegree + kCore, planted)
  {
    var d1 := Evaluate(reciprocity, planted);
    var d2 := Evaluate(mutualDegree, planted);
    var d3 := Evaluate(kCore, planted);
    var d4 := Evaluate(reciprocity + mutualDegree + kCore, planted);
    d := Detection(d1, d2, d3, d4);
  }
}
