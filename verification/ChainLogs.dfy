/** The chain as the indexer sees it: logs in (block, index) order, block-range
    queries, and the sort that restores the order of a provider's answer. */
module ChainLogs {

  import opened IndexDb

  predicate Before(a: Log, b: Log)
  {
    a.block < b.block || (a.block == b.block && a.key.index < b.key.index)
  }

  /** Strictly ordered, and no (transaction, index) pair twice. */
  ghost predicate ChainOk(chain: seq<Log>)
  {
    && (forall i, j :: 0 <= i < j < |chain| ==> Before(chain[i], chain[j]))
    && (forall i, j :: 0 <= i < j < |chain| ==> chain[i].key != chain[j].key)
  }

  /** How many logs lie in blocks up to `b`. */
  function Upto(chain: seq<Log>, b: int): (n: nat)
    ensures n <= |chain|
  {
    if chain == [] then 0
    else if chain[|chain| - 1].block <= b then |chain|
    else Upto(chain[..|chain| - 1], b)
  }

  lemma {:induction false} UptoSplits(chain: seq<Log>, b: int, i: nat)
    requires ChainOk(chain) && i < |chain|
    ensures i < Upto(chain, b) <==> chain[i].block <= b
  {
    var last := |chain| - 1;
    if chain[last].block > b && i < last {
      UptoSplits(chain[..last], b, i);
    }
  }

  lemma UptoMonotone(chain: seq<Log>, a: int, b: int)
    requires ChainOk(chain) && a <= b
    ensures Upto(chain, a) <= Upto(chain, b)
  {
    var n := Upto(chain, b);
    if n < |chain| {
      UptoSplits(chain, a, n);
      UptoSplits(chain, b, n);
    }
  }

  /** The logs of blocks `from` to `to`. */
  function Slice(chain: seq<Log>, from: int, to: int): seq<Log>
    requires ChainOk(chain) && from <= to
  {
    UptoMonotone(chain, from - 1, to);
    chain[Upto(chain, from - 1)..Upto(chain, to)]
  }

  lemma SliceOk(chain: seq<Log>, from: int, to: int)
    requires ChainOk(chain) && from <= to
    ensures ChainOk(Slice(chain, from, to))
  {
    UptoMonotone(chain, from - 1, to);
  }

  /** A node's view of the chain. An answer to a range query may come in any
      order; a hash of zero stands for a block the node cannot give. */
  datatype Provider = Provider(head: int, getLogs: (int, int) -> seq<Log>, hashAt: int -> nat)

  /** The node's answers agree with `chain` on every range of blocks up to
      `upTo`; what it says of later blocks does not matter. */
  ghost predicate Serves(p: Provider, chain: seq<Log>, upTo: int)
  {
    && ChainOk(chain)
    && forall from: int, to: int {:trigger p.getLogs(from, to)} :: from <= to <= upTo ==>
         multiset(p.getLogs(from, to)) == multiset(Slice(chain, from, to))
  }

  // ---- sorting an answer ----

  predicate Sorted(logs: seq<Log>)
  {
    forall i, j :: 0 <= i < j < |logs| ==> !Before(logs[j], logs[i])
  }

  /** The place of `log` among sorted logs. */
  method InsertLog(sorted: seq<Log>, log: Log) returns (r: seq<Log>)
    requires Sorted(sorted)
    ensures Sorted(r)
    ensures multiset(r) == multiset(sorted) + multiset{log}
  {
    var i := |sorted|;
    while i > 0 && Before(log, sorted[i - 1])
      invariant 0 <= i <= |sorted|
      invariant forall j :: i <= j < |sorted| ==> Before(log, sorted[j])
    {
      i := i - 1;
    }
    r := sorted[..i] + [log] + sorted[i..];
    assert sorted == sorted[..i] + sorted[i..];
    InsertKeepsSorted(sorted, log, i);
  }

  lemma InsertKeepsSorted(sorted: seq<Log>, log: Log, i: nat)
    requires Sorted(sorted) && i <= |sorted|
    requires forall j :: i <= j < |sorted| ==> Before(log, sorted[j])
    requires i > 0 ==> !Before(log, sorted[i - 1])
    ensures Sorted(sorted[..i] + [log] + sorted[i..])
  {
    var r := sorted[..i] + [log] + sorted[i..];
    forall a, b | 0 <= a < b < |r|
      ensures !Before(r[b], r[a])
    {
      if a < i && b == i && a < i - 1 {
        assert !Before(sorted[i - 1], sorted[a]);
      }
    }
  }

  /** Put an answer into (block, index) order. */
  method SortLogs(logs: seq<Log>) returns (r: seq<Log>)
    ensures Sorted(r) && multiset(r) == multiset(logs)
  {
    r := [];
    for i := 0 to |logs|
      invariant Sorted(r) && multiset(r) == multiset(logs[..i])
    {
      assert logs[..i + 1] == logs[..i] + [logs[i]];
      r := InsertLog(r, logs[i]);
    }
    assert logs[..|logs|] == logs;
  }

  /** A sorted arrangement of a strictly ordered sequence is that sequence. */
  lemma {:induction false} SortIsUnique(sorted: seq<Log>, ordered: seq<Log>)
    requires Sorted(sorted) && ChainOk(ordered) && multiset(sorted) == multiset(ordered)
    ensures sorted == ordered
  {
    if ordered == [] {
      assert |multiset(sorted)| == 0;
    } else {
      assert ordered[0] in multiset(sorted);
      assert |sorted| > 0 by {
        assert ordered[0] in sorted;
      }
      assert sorted[0] in multiset(ordered);
      assert sorted[0] == ordered[0];
      assert sorted == [sorted[0]] + sorted[1..] && ordered == [ordered[0]] + ordered[1..];
      assert multiset(sorted[1..]) == multiset(sorted) - multiset{sorted[0]};
      assert multiset(ordered[1..]) == multiset(ordered) - multiset{ordered[0]};
      SortIsUnique(sorted[1..], ordered[1..]);
    }
  }
}
