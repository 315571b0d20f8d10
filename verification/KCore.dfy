/** Ring detection by k-core peeling. The core is defined with no reference to
    peeling, as the largest self-supporting set of nodes; the in-place peeling
    loop is then proved to find exactly that set, whatever order it visits
    the nodes in. */
module KCore {

  import opened Parties
  import opened TrustGraph

  /** Every member of `s` has at least `k` neighbours inside `s`. */
  ghost predicate SelfSupporting(g: Graph, k: int, s: set<Party>)
  {
    s <= g.nodes && forall n :: n in s ==> |Adj(g, n) * s| >= k
  }

  /** `s` is the largest self-supporting set. */
  ghost predicate IsCore(g: Graph, k: int, s: set<Party>)
  {
    SelfSupporting(g, k, s) && forall c :: SelfSupporting(g, k, c) ==> c <= s
  }

  /** The k-core as the union of all self-supporting sets. */
  ghost function Core(g: Graph, k: int): set<Party>
  {
    set n | n in g.nodes && InSomeSupport(g, k, n)
  }

  ghost predicate InSomeSupport(g: Graph, k: int, n: Party)
  {
    exists s :: n in s && SelfSupporting(g, k, s)
  }

  lemma SubsetCard(a: set<Party>, b: set<Party>)
    requires a <= b
    ensures |a| <= |b|
  {
    assert b == a + (b - a);
  }

  /** Every graph has exactly one k-core, the union of its self-supporting sets. */
  lemma CoreIsGreatest(g: Graph, k: int)
    ensures IsCore(g, k, Core(g, k))
  {
    var u := Core(g, k);
    forall n | n in u
      ensures |Adj(g, n) * u| >= k
    {
      var s :| n in s && SelfSupporting(g, k, s);
      forall m | m in s
        ensures m in u
      {
        assert InSomeSupport(g, k, m);
      }
      SubsetCard(Adj(g, n) * s, Adj(g, n) * u);
    }
    forall c | SelfSupporting(g, k, c)
      ensures c <= u
    {
      forall m | m in c
        ensures m in u
      {
        assert InSomeSupport(g, k, m);
      }
    }
  }

  lemma CoreUnique(g: Graph, k: int, s: set<Party>)
    requires IsCore(g, k, s)
    ensures s == Core(g, k)
  {
    CoreIsGreatest(g, k);
  }

  /** Asking for more support can only shrink the core. */
  lemma CoresNest(g: Graph, j: int, k: int)
    requires j <= k
    ensures Core(g, k) <= Core(g, j)
  {
    CoreIsGreatest(g, j);
    CoreIsGreatest(g, k);
    assert SelfSupporting(g, j, Core(g, k));
  }

  lemma NoNeighboursNoSupport(g: Graph, k: int, maxDegree: int, s: set<Party>)
    requires forall n :: n in g.nodes ==> |Adj(g, n)| <= maxDegree
    requires k > maxDegree && SelfSupporting(g, k, s)
    ensures s == {}
  {
    forall n | n in g.nodes
      ensures n !in s
    {
      SubsetCard(Adj(g, n) * s, Adj(g, n));
    }
  }

  /** A threshold above every degree leaves nobody. */
  lemma NoNeighboursNoCore(g: Graph, k: int, maxDegree: int)
    requires forall n :: n in g.nodes ==> |Adj(g, n)| <= maxDegree
    requires k > maxDegree
    ensures Core(g, k) == {}
  {
    CoreIsGreatest(g, k);
    NoNeighboursNoSupport(g, k, maxDegree, Core(g, k));
  }

  lemma NothingAskedEverythingKept(g: Graph, k: int)
    requires k <= 0
    ensures Core(g, k) == g.nodes
  {
    CoreIsGreatest(g, k);
    assert SelfSupporting(g, k, g.nodes);
  }

  // ---- the peeling loop ----

  /** The degree map counts, for each node still standing, its neighbours still standing. */
  ghost predicate DegreesExact(g: Graph, degree: map<Party, int>, removed: set<Party>)
  {
    && degree.Keys == g.nodes
    && (forall n :: n in g.nodes && n !in removed ==> degree[n] == |Adj(g, n) - removed|)
  }

  /** No self-supporting set has lost a member. */
  ghost predicate SupportsIntact(g: Graph, k: int, removed: set<Party>)
  {
    forall c :: SelfSupporting(g, k, c) ==> c !! removed
  }

  lemma RemovingWeakNodeIsSafe(g: Graph, k: int, removed: set<Party>, node: Party)
    requires SupportsIntact(g, k, removed)
    requires |Adj(g, node) - removed| < k
    ensures SupportsIntact(g, k, removed + {node})
  {
    forall c | SelfSupporting(g, k, c)
      ensures node !in c
    {
      assert c !! removed;
      SubsetCard(Adj(g, node) * c, Adj(g, node) - removed);
    }
  }

  lemma StandingDegree(g: Graph, removed: set<Party>, node: Party, n: Party)
    requires Symmetric(g) && node !in removed
    ensures |Adj(g, n) - (removed + {node})| == |Adj(g, n) - removed| - (if n in Adj(g, node) then 1 else 0)
  {
    assert node in Adj(g, n) <==> n in Adj(g, node);
    var standing := Adj(g, n) - removed;
    var gone := removed + {node};
    if node in Adj(g, n) {
      assert standing == (Adj(g, n) - gone) + {node};
    } else {
      assert standing == Adj(g, n) - gone;
    }
  }

  lemma DegreesAfterRemoval(g: Graph, degree: map<Party, int>, degree': map<Party, int>,
                            removed: set<Party>, node: Party)
    requires Symmetric(g) && node !in removed
    requires DegreesExact(g, degree, removed)
    requires degree'.Keys == g.nodes
    requires forall n :: n in g.nodes && n !in removed + {node} ==>
               degree'[n] == degree[n] - (if n in Adj(g, node) then 1 else 0)
    ensures DegreesExact(g, degree', removed + {node})
  {
    forall n | n in g.nodes && n !in removed + {node}
      ensures degree'[n] == |Adj(g, n) - (removed + {node})|
    {
      StandingDegree(g, removed, node, n);
    }
  }

  /** Lower by one the degree of every standing neighbour of a node just removed. */
  method LowerNeighbours(g: Graph, degree: map<Party, int>, gone: set<Party>, node: Party)
    returns (degree': map<Party, int>)
    requires degree.Keys == g.nodes && Adj(g, node) <= g.nodes
    ensures degree'.Keys == g.nodes
    ensures forall n :: n in g.nodes && n !in gone ==>
              degree'[n] == degree[n] - (if n in Adj(g, node) then 1 else 0)
  {
    degree' := degree;
    var neighbours := Spread(Adj(g, node));
    for i := 0 to |neighbours|
      invariant degree'.Keys == g.nodes
      invariant forall n :: n in g.nodes && n !in gone ==>
                  degree'[n] == degree[n] - (if n in neighbours[..i] then 1 else 0)
    {
      var neighbour := neighbours[i];
      assert neighbour !in neighbours[..i];
      assert neighbours[..i + 1] == neighbours[..i] + [neighbour];
      assert neighbour in Adj(g, node);
      if neighbour !in gone {
        degree' := degree'[neighbour := degree'[neighbour] - 1];
      }
    }
    assert neighbours[..|neighbours|] == neighbours;
  }

  /** The state of one peeling run: exact degrees, and nothing removed that any
      self-supporting set needs. */
  ghost predicate Peeling(g: Graph, k: int, degree: map<Party, int>, removed: set<Party>)
  {
    removed <= g.nodes && DegreesExact(g, degree, removed) && SupportsIntact(g, k, removed)
  }

  /** Take one weak node out. */
  method RemoveNode(g: Graph, k: int, degree: map<Party, int>, removed: set<Party>, node: Party)
    returns (degree': map<Party, int>)
    requires Symmetric(g)
    requires Peeling(g, k, degree, removed)
    requires node in g.nodes && node !in removed && degree[node] < k
    ensures Peeling(g, k, degree', removed + {node})
  {
    RemovingWeakNodeIsSafe(g, k, removed, node);
    degree' := LowerNeighbours(g, degree, removed + {node}, node);
    DegreesAfterRemoval(g, degree, degree', removed, node);
  }

  /** One pass over the nodes, removing each whose standing degree is below `k`. */
  method Sweep(g: Graph, nodes: seq<Party>, k: int, degree: map<Party, int>, removed: set<Party>)
    returns (degree': map<Party, int>, removed': set<Party>, changed: bool)
    requires Symmetric(g) && Lists(nodes, g.nodes)
    requires Peeling(g, k, degree, removed)
    ensures Peeling(g, k, degree', removed')
    ensures changed ==> removed < removed'
    ensures !changed ==> removed' == removed && forall n :: n in g.nodes && n !in removed' ==> degree'[n] >= k
  {
    degree', removed', changed := degree, removed, false;
    for i := 0 to |nodes|
      invariant Peeling(g, k, degree', removed')
      invariant if changed then removed < removed' else removed' == removed
      invariant !changed ==> forall n :: n in nodes[..i] && n !in removed' ==> degree'[n] >= k
    {
      var node := nodes[i];
      assert node in g.nodes;
      assert nodes[..i + 1] == nodes[..i] + [node];
      if node !in removed' && degree'[node] < k {
        degree' := RemoveNode(g, k, degree', removed', node);
        removed' := removed' + {node};
        changed := true;
      }
    }
    assert nodes[..|nodes|] == nodes;
  }

  /** Sweep until a whole sweep removes nothing; the survivors are the k-core. */
  method Peel(g: Graph, nodes: seq<Party>, k: int) returns (removed: set<Party>)
    requires Symmetric(g) && Lists(nodes, g.nodes)
    ensures removed <= g.nodes
    ensures g.nodes - removed == Core(g, k)
  {
    var degree: map<Party, int> := map n | n in g.nodes :: |Adj(g, n)|;
    removed := {};
    assert forall n :: Adj(g, n) - removed == Adj(g, n);
    var changed := true;
    while changed
      invariant Peeling(g, k, degree, removed)
      invariant !changed ==> forall n :: n in g.nodes && n !in removed ==> degree[n] >= k
      decreases |g.nodes - removed|, changed
    {
      ghost var before := removed;
      degree, removed, changed := Sweep(g, nodes, k, degree, removed);
      if changed {
        StandingShrinks(g.nodes, before, removed);
      }
    }
    SurvivorsAreCore(g, k, degree, removed);
  }

  lemma StandingShrinks(nodes: set<Party>, before: set<Party>, after: set<Party>)
    requires before < after <= nodes
    ensures |nodes - after| < |nodes - before|
  {
    var extra :| extra in after && extra !in before;
    SubsetCard((nodes - after) + {extra}, nodes - before);
  }

  lemma SurvivorsAreCore(g: Graph, k: int, degree: map<Party, int>, removed: set<Party>)
    requires Symmetric(g) && Peeling(g, k, degree, removed)
    requires forall n :: n in g.nodes && n !in removed ==> degree[n] >= k
    ensures g.nodes - removed == Core(g, k)
  {
    var s := g.nodes - removed;
    forall n | n in s
      ensures |Adj(g, n) * s| >= k
    {
      assert Adj(g, n) * s == Adj(g, n) - removed;
    }
    forall c | SelfSupporting(g, k, c)
      ensures c <= s
    {
      assert c !! removed;
    }
    CoreUnique(g, k, s);
  }

  // ---- core numbers and the detector ----

  /** `number` is the largest k up to `limit` whose core still holds `n`. */
  ghost predicate IsCoreNumber(g: Graph, n: Party, number: int, limit: int)
  {
    && 0 <= number <= limit
    && n in Core(g, number)
    && forall j :: number < j <= limit ==> n !in Core(g, j)
  }

  method MaxDegree(g: Graph, nodes: seq<Party>) returns (max: int)
    requires Lists(nodes, g.nodes)
    ensures max >= 0
    ensures forall n :: n in g.nodes ==> |Adj(g, n)| <= max
  {
    max := 0;
    for i := 0 to |nodes|
      invariant max >= 0
      invariant forall n :: n in nodes[..i] ==> |Adj(g, n)| <= max
    {
      assert nodes[..i + 1] == nodes[..i] + [nodes[i]];
      if |Adj(g, nodes[i])| > max {
        max := |Adj(g, nodes[i])|;
      }
    }
    assert nodes[..|nodes|] == nodes;
  }

  lemma CoreNumberStep(g: Graph, n: Party, number: int, k: int)
    requires IsCoreNumber(g, n, number, k - 1)
    ensures IsCoreNumber(g, n, if n in Core(g, k) then k else number, k)
  {
  }

  method MarkSurvivors(nodes: seq<Party>, removed: set<Party>, k: int, core: map<Party, int>)
    returns (core': map<Party, int>)
    requires forall n :: n in nodes <==> n in core
    ensures core'.Keys == core.Keys
    ensures forall n :: n in core ==> core'[n] == if n !in removed then k else core[n]
  {
    core' := core;
    for i := 0 to |nodes|
      invariant core'.Keys == core.Keys
      invariant forall n :: n in core ==> core'[n] == if n in nodes[..i] && n !in removed then k else core[n]
    {
      assert nodes[..i + 1] == nodes[..i] + [nodes[i]];
      if nodes[i] !in removed {
        core' := core'[nodes[i] := k];
      }
    }
    assert nodes[..|nodes|] == nodes;
  }

  /** Record for each node the last k whose peeling it survived. */
  method CoreNumbers(g: Graph, nodes: seq<Party>) returns (core: map<Party, int>)
    requires Symmetric(g) && Lists(nodes, g.nodes)
    ensures core.Keys == g.nodes
    ensures forall n, k :: n in g.nodes ==> (n in Core(g, k) <==> k <= core[n])
  {
    var maxDegree := MaxDegree(g, nodes);
    core := map n | n in g.nodes :: 0;
    NothingAskedEverythingKept(g, 0);
    for k := 1 to maxDegree + 1
      invariant core.Keys == g.nodes
      invariant forall n :: n in g.nodes ==> IsCoreNumber(g, n, core[n], k - 1)
    {
      var removed := Peel(g, nodes, k);
      forall n | n in g.nodes
        ensures n !in removed <==> n in Core(g, k)
        ensures IsCoreNumber(g, n, if n !in removed then k else core[n], k)
      {
        assert n !in removed <==> n in g.nodes - removed;
        CoreNumberStep(g, n, core[n], k);
      }
      core := MarkSurvivors(nodes, removed, k, core);
    }
    forall n, k | n in g.nodes
      ensures n in Core(g, k) <==> k <= core[n]
    {
      assert IsCoreNumber(g, n, core[n], maxDegree);
      if k <= core[n] {
        CoresNest(g, k, core[n]);
      } else if k > maxDegree {
        NoNeighboursNoCore(g, k, maxDegree);
      }
    }
  }

  /** Flag the nodes whose core number reaches the threshold: exactly the
      threshold's core, for every threshold. */
  method DetectByKCore(g: Graph, threshold: int) returns (flagged: set<Party>)
    requires Symmetric(g)
    ensures flagged == Core(g, threshold)
    ensures IsCore(g, threshold, flagged)
  {
    var nodes := Spread(g.nodes);
    var core := CoreNumbers(g, nodes);
    flagged := {};
    for i := 0 to |nodes|
      invariant forall n :: n in flagged <==> n in nodes[..i] && core[n] >= threshold
    {
      assert nodes[..i + 1] == nodes[..i] + [nodes[i]];
      if core[nodes[i]] >= threshold {
        flagged := flagged + {nodes[i]};
      }
    }
    assert nodes[..|nodes|] == nodes;
    CoreIsGreatest(g, threshold);
  }
}
