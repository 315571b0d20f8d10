/** Account identities, and walking a set of them in an arbitrary order. */
module Parties {

  /** The simulator names every account by an integer. */
  datatype Party = Party(id: int)

  datatype Option<+T> = None | Some(value: T)

  /** `order` lists the members of `s` once each, in some order. */
  ghost predicate Lists(order: seq<Party>, s: set<Party>)
  {
    && (forall n :: n in order <==> n in s)
    && (forall i, j :: 0 <= i < j < |order| ==> order[i] != order[j])
  }

  /** Spread a set into a sequence; no property below depends on the order. */
  method Spread(s: set<Party>) returns (order: seq<Party>)
    ensures Lists(order, s)
  {
    order := [];
    var todo := s;
    while |todo| > 0
      invariant todo <= s
      invariant Lists(order, s - todo)
    {
      assert exists n :: n in todo;
      var n :| n in todo;
      order := order + [n];
      todo := todo - {n};
    }
  }
}
