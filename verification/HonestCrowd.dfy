/** What the three detectors see of honest agents that rate each other at will:
    whom they flag wrongly, told from the choices alone. */
module HonestCrowd {

  import opened Parties
  import opened Spending
  import opened TrustGraph
  import opened RingDetection
  import KCore

  /** Every edge stays inside the ring. */
  predicate Within(edges: seq<Edge>, size: nat)
  {
    forall e :: e in edges ==> e.from != e.to && InBlock(e.from, 0, size) && InBlock(e.to, 0, size)
  }

  /** One agent's ratings, in order. */
  function EdgesFrom(from: Party, chosen: seq<Party>): seq<Edge>
  {
    if chosen == [] then [] else EdgesFrom(from, chosen[..|chosen| - 1]) + [Edge(from, chosen[|chosen| - 1])]
  }

  /** Everybody's ratings: agent `base + h` rates those in `choices[h]`. */
  function HonestEdges(choices: seq<seq<Party>>, base: int): seq<Edge>
  {
    if choices == [] then []
    else
      var n := |choices| - 1;
      HonestEdges(choices[..n], base) + EdgesFrom(Party(base + n), choices[n])
  }

  /** Whom the `h`-th honest agent rates. */
  function Chosen(choices: seq<seq<Party>>, h: int): set<Party>
  {
    if 0 <= h < |choices| then set p | p in choices[h] else {}
  }

  lemma {:induction false} EdgeFromIff(from: Party, chosen: seq<Party>, e: Edge)
    ensures e in EdgesFrom(from, chosen) <==> e.from == from && e.to in chosen
  {
    if chosen != [] {
      var n := |chosen| - 1;
      EdgeFromIff(from, chosen[..n], e);
      assert chosen == chosen[..n] + [chosen[n]];
    }
  }

  lemma {:induction false} HonestEdgeIff(choices: seq<seq<Party>>, base: int, e: Edge)
    ensures e in HonestEdges(choices, base) <==> e.to in Chosen(choices, e.from.id - base)
  {
    if choices != [] {
      var n := |choices| - 1;
      HonestEdgeIff(choices[..n], base, e);
      EdgeFromIff(Party(base + n), choices[n], e);
    }
  }

  /** Nobody rates themselves or anybody outside the crowd. */
  predicate KeepToThemselves(choices: seq<seq<Party>>, base: int)
  {
    forall h, p :: 0 <= h < |choices| && p in choices[h] ==> InBlock(p, base, |choices|) && p != Party(base + h)
  }

  /** Who rates agent `p`. */
  function RatersOf(choices: seq<seq<Party>>, base: int, p: Party): set<Party>
  {
    set h: nat | h < |choices| && p in choices[h] :: Offset(base, h)
  }

  /** Those that `p` has rated and that have rated `p`. */
  function Returned(choices: seq<seq<Party>>, base: int, p: Party): set<Party>
  {
    Chosen(choices, p.id - base) * RatersOf(choices, base, p)
  }

  // ---- who is flagged wrongly ----

  /** Honest agents whose returned share reaches the threshold. */
  function MostlyReturned(choices: seq<seq<Party>>, base: int, threshold: real): set<Party>
  {
    set p | p in Ids(base, |choices|) && Chosen(choices, p.id - base) != {}
         && |Returned(choices, base, p)| as real / |Chosen(choices, p.id - base)| as real >= threshold
  }

  /** Honest agents with that many mutual ratings. */
  function MuchReturned(choices: seq<seq<Party>>, base: int, minPartners: int): set<Party>
  {
    set p | p in Ids(base, |choices|) && |Returned(choices, base, p)| >= minPartners
  }

  /** A group of honest agents each of which has rated, or been rated by, at least `k` of the group. */
  ghost predicate Clique(choices: seq<seq<Party>>, base: int, k: int, s: set<Party>)
  {
    && s <= Ids(base, |choices|)
    && forall p :: p in s ==> |(Chosen(choices, p.id - base) + RatersOf(choices, base, p)) * s| >= k
  }

  /** Honest agents in such a group. */
  ghost function Cliquish(choices: seq<seq<Party>>, base: int, k: int): set<Party>
  {
    set p | p in Ids(base, |choices|) && exists s :: p in s && Clique(choices, base, k, s)
  }

  /** Each detector's false alarms are exactly those, and its flags and precision follow. */
  ghost predicate CrowdVerdict(d: Detection, choices: seq<seq<Party>>, base: int, t: Thresholds)
  {
    var a, b := MostlyReturned(choices, base, t.reciprocity), MuchReturned(choices, base, t.minPartners);
    var c := Cliquish(choices, base, t.core);
    && FalseAlarms(d.reciprocity, a) && FalseAlarms(d.mutualDegree, b) && FalseAlarms(d.kCore, c)
    && FalseAlarms(d.ensemble, a + b + c)
  }

  predicate FalseAlarms(d: DetectorResult, wrongly: set<Party>)
  {
    && d.falsePositives == |wrongly| && d.flagged == d.truePositives + |wrongly|
    && d.precision == Ratio(d.truePositives, d.truePositives + |wrongly|)
  }

  // ---- the crowd in the graph ----

  /** The ring's edges and the crowd's, and all their accounts. */
  ghost predicate Mixed(g: Graph, ring: seq<Edge>, choices: seq<seq<Party>>, base: int, size: nat)
  {
    && Represents(g, ring + HonestEdges(choices, base), Ids(0, size) + Ids(base, |choices|))
    && Within(ring, size) && size <= base && KeepToThemselves(choices, base)
  }

  lemma CrowdEdgeIff(ring: seq<Edge>, choices: seq<seq<Party>>, base: int, size: nat, e: Edge)
    requires Within(ring, size) && size <= base && (InBlock(e.from, base, |choices|) || InBlock(e.to, base, |choices|))
    ensures e in ring + HonestEdges(choices, base) <==> e.to in Chosen(choices, e.from.id - base)
  {
    HonestEdgeIff(choices, base, e);
  }

  lemma InIds(base: int, n: nat, p: Party)
    ensures p in Ids(base, n) <==> InBlock(p, base, n)
  {
    if InBlock(p, base, n) {
      assert p == Offset(base, p.id - base);
    }
  }

  lemma RatersIff(choices: seq<seq<Party>>, base: int, p: Party, q: Party)
    ensures q in RatersOf(choices, base, p) <==> p in Chosen(choices, q.id - base)
  {
    if p in Chosen(choices, q.id - base) {
      assert q == Offset(base, q.id - base);
    }
  }

  /** A member of the crowd among the edges. */
  lemma CrowdEdges(ring: seq<Edge>, choices: seq<seq<Party>>, base: int, size: nat, p: Party)
    requires Within(ring, size) && size <= base && InBlock(p, base, |choices|)
    ensures
      var edges := ring + HonestEdges(choices, base);
      && Targets(edges, p) == Chosen(choices, p.id - base) && Sources(edges, p) == RatersOf(choices, base, p)
  {
    var edges := ring + HonestEdges(choices, base);
    forall q
      ensures q in Targets(edges, p) <==> q in Chosen(choices, p.id - base)
      ensures q in Sources(edges, p) <==> q in RatersOf(choices, base, p)
    {
      SourceIff(edges, p, q);
      CrowdEdgeIff(ring, choices, base, size, Edge(p, q));
      CrowdEdgeIff(ring, choices, base, size, Edge(q, p));
      RatersIff(choices, base, p, q);
    }
  }

  /** A member of the crowd as the graph shows it. */
  predicate Shown(g: Graph, choices: seq<seq<Party>>, base: int, p: Party)
  {
    && Lookup(g.outgoing, p) == Chosen(choices, p.id - base)
    && Adj(g, p) == Chosen(choices, p.id - base) + RatersOf(choices, base, p)
    && Partners(g, p) == |Returned(choices, base, p)|
    && Adj(g, p) <= Ids(base, |choices|)
  }

  /** Ring and crowd make up the graph, and it shows each of the crowd. */
  ghost predicate Crowded(g: Graph, choices: seq<seq<Party>>, base: int, planted: set<Party>)
  {
    && g.nodes == planted + Ids(base, |choices|) && planted !! Ids(base, |choices|)
    && forall p :: p in Ids(base, |choices|) ==> Shown(g, choices, base, p)
  }

  lemma CrowdMember(g: Graph, ring: seq<Edge>, choices: seq<seq<Party>>, base: int, size: nat, p: Party)
    requires Mixed(g, ring, choices, base, size) && p in Ids(base, |choices|) && p in g.nodes
    ensures Shown(g, choices, base, p)
  {
    var edges := ring + HonestEdges(choices, base);
    InIds(base, |choices|, p);
    CrowdEdges(ring, choices, base, size, p);
    assert Lookup(g.outgoing, p) == Targets(edges, p) && Adj(g, p) == Targets(edges, p) + Sources(edges, p);
    assert Mutual(edges, p) == Returned(choices, base, p);
    ChosenAreCrowd(choices, base, p);
  }

  /** Nobody in the crowd has an edge that leaves it. */
  lemma ChosenAreCrowd(choices: seq<seq<Party>>, base: int, p: Party)
    requires KeepToThemselves(choices, base) && InBlock(p, base, |choices|)
    ensures Chosen(choices, p.id - base) + RatersOf(choices, base, p) <= Ids(base, |choices|)
  {
    forall q | q in Chosen(choices, p.id - base) + RatersOf(choices, base, p)
      ensures q in Ids(base, |choices|)
    {
      InIds(base, |choices|, q);
      RatersIff(choices, base, p, q);
    }
  }

  /** The graph has no account but the ring's and the crowd's. */
  lemma NodesAre(g: Graph, ring: seq<Edge>, choices: seq<seq<Party>>, base: int, size: nat)
    requires Mixed(g, ring, choices, base, size)
    ensures g.nodes == Ids(0, size) + Ids(base, |choices|) && Ids(0, size) !! Ids(base, |choices|)
  {
    var edges := ring + HonestEdges(choices, base);
    forall e | e in edges
      ensures e.from in Ids(0, size) + Ids(base, |choices|) && e.to in Ids(0, size) + Ids(base, |choices|)
    {
      InIds(0, size, e.from);
      InIds(0, size, e.to);
      InIds(base, |choices|, e.from);
      InIds(base, |choices|, e.to);
      HonestEdgeIff(choices, base, e);
    }
    forall p
      ensures !(p in Ids(0, size) && p in Ids(base, |choices|))
    {
      InIds(0, size, p);
      InIds(base, |choices|, p);
    }
  }

  lemma MixedIsCrowded(g: Graph, ring: seq<Edge>, choices: seq<seq<Party>>, base: int, size: nat)
    requires Mixed(g, ring, choices, base, size)
    ensures Crowded(g, choices, base, Ids(0, size))
  {
    NodesAre(g, ring, choices, base, size);
    forall p | p in Ids(base, |choices|)
      ensures Shown(g, choices, base, p)
    {
      CrowdMember(g, ring, choices, base, size, p);
    }
  }

  lemma ReciprocityFlags(g: Graph, choices: seq<seq<Party>>, base: int, planted: set<Party>, threshold: real)
    requires Crowded(g, choices, base, planted)
    ensures Reciprocating(g, threshold) - planted == MostlyReturned(choices, base, threshold)
  {
    forall p | p in Ids(base, |choices|)
      ensures p in Reciprocating(g, threshold) <==> p in MostlyReturned(choices, base, threshold)
    {
      assert Shown(g, choices, base, p);
    }
  }

  lemma DegreeFlags(g: Graph, choices: seq<seq<Party>>, base: int, planted: set<Party>, minPartners: int)
    requires Crowded(g, choices, base, planted)
    ensures Partnered(g, minPartners) - planted == MuchReturned(choices, base, minPartners)
  {
    forall p | p in Ids(base, |choices|)
      ensures p in Partnered(g, minPartners) <==> p in MuchReturned(choices, base, minPartners)
    {
      assert Shown(g, choices, base, p);
    }
  }

  lemma CoreFlags(g: Graph, choices: seq<seq<Party>>, base: int, planted: set<Party>, k: int)
    requires Crowded(g, choices, base, planted)
    ensures KCore.Core(g, k) - planted == Cliquish(choices, base, k)
  {
    KCore.CoreIsGreatest(g, k);
    var core := KCore.Core(g, k);
    CoreOfCrowd(g, choices, base, planted, k, core);
    forall p | p in Ids(base, |choices|)
      ensures p in core <==> p in Cliquish(choices, base, k)
    {
      if p in core {
        assert p in core * Ids(base, |choices|);
      }
      if p in Cliquish(choices, base, k) {
        var s :| p in s && Clique(choices, base, k, s);
        CliqueSupports(g, choices, base, planted, k, s);
      }
    }
  }

  /** The crowd's part of the core is such a group. */
  lemma CoreOfCrowd(g: Graph, choices: seq<seq<Party>>, base: int, planted: set<Party>, k: int, core: set<Party>)
    requires Crowded(g, choices, base, planted) && KCore.SelfSupporting(g, k, core)
    ensures Clique(choices, base, k, core * Ids(base, |choices|))
  {
    var crowd := Ids(base, |choices|);
    forall p | p in core * crowd
      ensures |(Chosen(choices, p.id - base) + RatersOf(choices, base, p)) * (core * crowd)| >= k
    {
      assert Shown(g, choices, base, p);
      SameWithin(Adj(g, p), core, crowd);
    }
  }

  lemma SameWithin(near: set<Party>, core: set<Party>, crowd: set<Party>)
    requires near <= crowd
    ensures near * (core * crowd) == near * core
  {
  }

  /** Such a group supports itself in the graph. */
  lemma CliqueSupports(g: Graph, choices: seq<seq<Party>>, base: int, planted: set<Party>, k: int, s: set<Party>)
    requires Crowded(g, choices, base, planted) && Clique(choices, base, k, s)
    ensures KCore.SelfSupporting(g, k, s)
  {
    forall p | p in s
      ensures p in g.nodes && |Adj(g, p) * s| >= k
    {
      assert Shown(g, choices, base, p);
    }
  }

  lemma AlarmsOf(d: DetectorResult, flagged: set<Party>, planted: set<Party>, wrongly: set<Party>)
    requires Evaluates(d, flagged, planted) && flagged - planted == wrongly
    ensures FalseAlarms(d, wrongly)
  {
    HitsAndMisses(flagged, planted);
  }

  /** Three detectors and their union, by what each flags beyond the ring. */
  lemma AlarmsTogether(d: Detection, a: set<Party>, b: set<Party>, c: set<Party>, planted: set<Party>, x: set<Party>,
                       y: set<Party>, z: set<Party>)
    requires Evaluates(d.reciprocity, a, planted) && Evaluates(d.mutualDegree, b, planted)
    requires Evaluates(d.kCore, c, planted) && Evaluates(d.ensemble, a + b + c, planted)
    requires a - planted == x && b - planted == y && c - planted == z
    ensures FalseAlarms(d.reciprocity, x) && FalseAlarms(d.mutualDegree, y) && FalseAlarms(d.kCore, z)
    ensures FalseAlarms(d.ensemble, x + y + z)
  {
    AlarmsOf(d.reciprocity, a, planted, x);
    AlarmsOf(d.mutualDegree, b, planted, y);
    AlarmsOf(d.kCore, c, planted, z);
    AlarmsOf(d.ensemble, a + b + c, planted, x + y + z);
  }

  /** Whom the detectors flag wrongly depends on the choices alone, whatever the ring does. */
  lemma JudgedCrowd(d: Detection, g: Graph, choices: seq<seq<Party>>, base: int, planted: set<Party>, t: Thresholds)
    requires Crowded(g, choices, base, planted) && Judges(d, g, t, planted)
    ensures CrowdVerdict(d, choices, base, t)
  {
    ReciprocityFlags(g, choices, base, planted, t.reciprocity);
    DegreeFlags(g, choices, base, planted, t.minPartners);
    CoreFlags(g, choices, base, planted, t.core);
    AlarmsTogether(d, Reciprocating(g, t.reciprocity), Partnered(g, t.minPartners), KCore.Core(g, t.core), planted,
                   MostlyReturned(choices, base, t.reciprocity), MuchReturned(choices, base, t.minPartners),
                   Cliquish(choices, base, t.core));
  }
}
