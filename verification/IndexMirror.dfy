/** The denormalised counters against a direct count over what is live on the
    chain, after every log. */
module IndexMirror {

  import opened Arithmetic
  import opened IndexDb

  /** The simple view of the chain: who owns each completion, and the one live
      receipt of each completion that has one. */
  datatype View = View(owner: map<nat, Address>, live: map<nat, Pair>)

  const NO_VIEW := View(map[], map[])

  function Observe(v: View, e: Event): View
  {
    match e
    case SelfAttested(id, agent) => Owned(v, id, agent)
    case ReceiptAttested(id, agent, counterparty) => Live(v, id, Pair(agent, counterparty))
    case ReceiptRevoked(id) => NotLive(v, id)
    case ChallengeResolved(id, upheld) => if upheld then NotLive(v, id) else v
    case _ => v
  }

  /** What the contracts guarantee of the next event. */
  predicate Lawful(v: View, e: Event)
  {
    match e
    case SelfAttested(id, agent) => id !in v.owner
    case ReceiptAttested(id, agent, counterparty) => id in v.owner && v.owner[id] == agent && id !in v.live
    case ChallengeResolved(id, upheld) => upheld ==> id in v.owner
    case _ => true
  }

  function ViewOf(logs: seq<Log>): View
  {
    if logs == [] then NO_VIEW else Observe(ViewOf(logs[..|logs| - 1]), logs[|logs| - 1].event)
  }

  predicate LawfulLogs(logs: seq<Log>)
  {
    forall n :: 0 <= n < |logs| ==> Lawful(ViewOf(logs[..n]), logs[n].event)
  }

  // ---- direct counts ----

  function LiveOf(v: View, a: Address): set<nat>
  {
    set id | id in v.live && v.live[id].agent == a
  }

  function LiveFor(v: View, p: Pair): set<nat>
  {
    set id | id in v.live && v.live[id] == p
  }

  function OwnedBy(v: View, a: Address): set<nat>
  {
    set id | id in v.owner && v.owner[id] == a
  }

  function Counterparties(pairs: map<Pair, nat>, a: Address): set<Pair>
  {
    set p | p in pairs && p.agent == a
  }

  function ConfirmedOf(scores: map<Address, Scores>, a: Address): int
  {
    if a in scores then scores[a].confirmed else 0
  }

  function CompletionsOf(scores: map<Address, Scores>, a: Address): int
  {
    if a in scores then scores[a].completions else 0
  }

  /** Receipt rows are exactly the live receipts, and completion rows cover the
      owners; rows left from an abandoned fork may sit beside them. */
  ghost predicate RowsMirror(t: Tables, v: View)
  {
    && t.receipts.Keys == v.live.Keys
    && (forall id :: id in v.live ==> Pair(t.receipts[id].agent, t.receipts[id].counterparty) == v.live[id])
    && (forall id :: id in v.live ==> id in v.owner && v.owner[id] == v.live[id].agent)
    && (forall id :: id in v.owner ==> id in t.completions && t.completions[id] == v.owner[id])
  }

  ghost predicate ScoreExact(scores: map<Address, Scores>, v: View, a: Address)
  {
    ConfirmedOf(scores, a) == |LiveOf(v, a)| && CompletionsOf(scores, a) == |OwnedBy(v, a)|
  }

  ghost predicate DistinctExact(diversity: map<Address, int>, pairs: map<Pair, nat>, a: Address)
  {
    Distinct(diversity, a) == |Counterparties(pairs, a)|
  }

  /** `base` is what the pair counts held before these logs: nothing in a fresh index. */
  ghost predicate PairExact(pairs: map<Pair, nat>, v: View, base: map<Pair, nat>, p: Pair)
  {
    PairCount(pairs, p) == PairCount(base, p) + |LiveFor(v, p)| && (p in pairs ==> pairs[p] >= 1)
  }

  /** Every row is a live fact and every counter equals its direct count. */
  ghost predicate Mirrors(t: Tables, v: View, base: map<Pair, nat>)
  {
    && RowsMirror(t, v)
    && (forall a :: ScoreExact(t.scores, v, a))
    && (forall a :: DistinctExact(t.diversity, t.pairs, a))
    && (forall p :: PairExact(t.pairs, v, base, p))
  }

  // ---- how the direct counts move ----

  function Live(v: View, id: nat, p: Pair): View
  {
    v.(live := v.live[id := p])
  }

  function NotLive(v: View, id: nat): View
  {
    v.(live := v.live - {id})
  }

  lemma LiveOfAdded(v: View, id: nat, p: Pair, a: Address)
    requires id !in v.live
    ensures |LiveOf(Live(v, id, p), a)| == |LiveOf(v, a)| + (if a == p.agent then 1 else 0)
  {
    assert LiveOf(Live(v, id, p), a) == LiveOf(v, a) + (if a == p.agent then {id} else {});
  }

  lemma LiveForAdded(v: View, id: nat, p: Pair, q: Pair)
    requires id !in v.live
    ensures |LiveFor(Live(v, id, p), q)| == |LiveFor(v, q)| + (if q == p then 1 else 0)
  {
    assert LiveFor(Live(v, id, p), q) == LiveFor(v, q) + (if q == p then {id} else {});
  }

  lemma LiveOfRemoved(v: View, id: nat, a: Address)
    requires id in v.live
    ensures |LiveOf(NotLive(v, id), a)| == |LiveOf(v, a)| - (if a == v.live[id].agent then 1 else 0)
  {
    assert LiveOf(v, a) == LiveOf(NotLive(v, id), a) + (if a == v.live[id].agent then {id} else {});
  }

  lemma LiveForRemoved(v: View, id: nat, q: Pair)
    requires id in v.live
    ensures |LiveFor(NotLive(v, id), q)| == |LiveFor(v, q)| - (if q == v.live[id] then 1 else 0)
  {
    assert LiveFor(v, q) == LiveFor(NotLive(v, id), q) + (if q == v.live[id] then {id} else {});
  }

  function Owned(v: View, id: nat, agent: Address): View
  {
    v.(owner := v.owner[id := agent])
  }

  lemma OwnerAdded(v: View, id: nat, agent: Address, a: Address)
    requires id !in v.owner
    ensures |OwnedBy(Owned(v, id, agent), a)| == |OwnedBy(v, a)| + (if a == agent then 1 else 0)
    ensures LiveOf(Owned(v, id, agent), a) == LiveOf(v, a)
  {
    var before, after := OwnedBy(v, a), OwnedBy(Owned(v, id, agent), a);
    if a == agent {
      assert after == before + {id};
    } else {
      assert after == before;
    }
  }

  /** Adding a confirmation keeps the distinct count exact. */
  lemma PairAdded(diversity: map<Address, int>, pairs: map<Pair, nat>, p: Pair, a: Address)
    requires DistinctExact(diversity, pairs, a)
    requires p in pairs ==> pairs[p] >= 1
    ensures DistinctExact(AddDistinct(diversity, pairs, p), AddPair(pairs, p), a)
  {
    var before, after := Counterparties(pairs, a), Counterparties(AddPair(pairs, p), a);
    assert after == before + (if a == p.agent then {p} else {});
    assert p in before <==> p in pairs && p.agent == a;
  }

  /** Dropping a counted confirmation does too, and never meets the clamp. */
  lemma PairDropped(diversity: map<Address, int>, pairs: map<Pair, nat>, p: Pair, clamp: bool, a: Address)
    requires DistinctExact(diversity, pairs, a) && DistinctExact(diversity, pairs, p.agent)
    requires p in pairs && pairs[p] >= 1
    ensures DropDistinct(diversity, pairs, p, clamp) == DropDistinct(diversity, pairs, p, false)
    ensures DistinctExact(DropDistinct(diversity, pairs, p, clamp), DropPair(pairs, p), a)
  {
    assert p in Counterparties(pairs, p.agent);
    assert Distinct(diversity, p.agent) >= 1;
    var before, after := Counterparties(pairs, a), Counterparties(DropPair(pairs, p), a);
    if pairs[p] >= 2 {
      assert after == before;
    } else {
      assert after == before - {p};
      assert p in before <==> p.agent == a;
    }
  }

  // ---- one log ----

  lemma AttestMirrors(t: Tables, v: View, base: map<Pair, nat>, id: nat, agent: Address, ts: nat)
    requires Mirrors(t, v, base) && id !in v.owner
    requires id in t.completions ==> t.completions[id] == agent
    ensures Mirrors(Attested(t, id, agent, ts), Owned(v, id, agent), base)
  {
    var t', v' := Attested(t, id, agent, ts), Owned(v, id, agent);
    forall a
      ensures ScoreExact(t'.scores, v', a)
    {
      assert ScoreExact(t.scores, v, a);
      OwnerAdded(v, id, agent, a);
    }
    forall p
      ensures PairExact(t'.pairs, v', base, p)
    {
      assert PairExact(t.pairs, v, base, p);
      assert LiveFor(v', p) == LiveFor(v, p);
    }
    assert forall a :: DistinctExact(t.diversity, t.pairs, a);
  }

  lemma ConfirmScores(scores: map<Address, Scores>, v: View, id: nat, p: Pair, ts: nat, a: Address)
    requires ScoreExact(scores, v, a) && id !in v.live
    ensures ScoreExact(Bump(scores, p.agent, Scores(0, 1, 0, ts), true), Live(v, id, p), a)
  {
    LiveOfAdded(v, id, p, a);
    assert OwnedBy(Live(v, id, p), a) == OwnedBy(v, a);
  }

  lemma ConfirmCounters(t: Tables, v: View, id: nat, p: Pair, ts: nat, a: Address)
    requires ScoreExact(t.scores, v, a) && DistinctExact(t.diversity, t.pairs, a) && id !in v.live
    requires p in t.pairs ==> t.pairs[p] >= 1
    ensures
      var t' := Confirmed(t, id, p, ts);
      ScoreExact(t'.scores, Live(v, id, p), a) && DistinctExact(t'.diversity, t'.pairs, a)
  {
    ConfirmScores(t.scores, v, id, p, ts, a);
    PairAdded(t.diversity, t.pairs, p, a);
  }

  lemma ConfirmPairs(pairs: map<Pair, nat>, v: View, base: map<Pair, nat>, id: nat, p: Pair, q: Pair)
    requires id !in v.live && PairExact(pairs, v, base, q)
    ensures PairExact(AddPair(pairs, p), Live(v, id, p), base, q)
  {
    LiveForAdded(v, id, p, q);
  }

  lemma ConfirmRows(t: Tables, v: View, id: nat, p: Pair, ts: nat)
    requires RowsMirror(t, v) && id in v.owner && v.owner[id] == p.agent
    ensures RowsMirror(Confirmed(t, id, p, ts), Live(v, id, p))
  {
  }

  lemma ConfirmMirrors(t: Tables, v: View, base: map<Pair, nat>, id: nat, p: Pair, ts: nat)
    requires Mirrors(t, v, base)
    requires id in v.owner && v.owner[id] == p.agent && id !in v.live
    ensures Mirrors(Confirmed(t, id, p, ts), Live(v, id, p), base)
  {
    var t', v' := Confirmed(t, id, p, ts), Live(v, id, p);
    ConfirmRows(t, v, id, p, ts);
    assert PairExact(t.pairs, v, base, p);
    forall a
      ensures ScoreExact(t'.scores, v', a)
      ensures DistinctExact(t'.diversity, t'.pairs, a)
    {
      assert ScoreExact(t.scores, v, a) && DistinctExact(t.diversity, t.pairs, a);
      ConfirmCounters(t, v, id, p, ts, a);
    }
    forall q
      ensures PairExact(t'.pairs, v', base, q)
    {
      assert PairExact(t.pairs, v, base, q);
      ConfirmPairs(t.pairs, v, base, id, p, q);
    }
  }

  /** A dispute count moves neither confirmations nor completions. */
  lemma DisputeScores(scores: map<Address, Scores>, v: View, agent: Address, a: Address, clamp: bool)
    requires ScoreExact(scores, v, a) && ScoreExact(scores, v, agent)
    ensures ScoreExact(Bump(scores, agent, Scores(0, 0, 1, 0), clamp), v, a)
    ensures Bump(scores, agent, Scores(0, 0, 1, 0), clamp) == Bump(scores, agent, Scores(0, 0, 1, 0), false)
  {
  }

  /** A live receipt has a confirmation counted for it to take back. */
  lemma UnconfirmScores(scores: map<Address, Scores>, v: View, id: nat, a: Address, clamp: bool)
    requires id in v.live
    requires ScoreExact(scores, v, a) && ScoreExact(scores, v, v.live[id].agent)
    ensures var agent := v.live[id].agent;
      && ScoreExact(Bump(scores, agent, Scores(0, -1, 0, 0), clamp), NotLive(v, id), a)
      && Bump(scores, agent, Scores(0, -1, 0, 0), clamp) == Bump(scores, agent, Scores(0, -1, 0, 0), false)
  {
    assert id in LiveOf(v, v.live[id].agent);
    assert ConfirmedOf(scores, v.live[id].agent) >= 1;
    LiveOfRemoved(v, id, a);
    assert OwnedBy(NotLive(v, id), a) == OwnedBy(v, a);
  }

  lemma UnconfirmPairs(pairs: map<Pair, nat>, v: View, base: map<Pair, nat>, id: nat, q: Pair)
    requires id in v.live && PairExact(pairs, v, base, q) && PairExact(pairs, v, base, v.live[id])
    ensures v.live[id] in pairs && pairs[v.live[id]] >= 1
    ensures PairExact(DropPair(pairs, v.live[id]), NotLive(v, id), base, q)
  {
    assert id in LiveFor(v, v.live[id]);
    LiveForRemoved(v, id, q);
  }

  lemma UnconfirmRows(t: Tables, v: View, id: nat, disputes: int, clamp: bool)
    requires RowsMirror(t, v) && id in v.live
    ensures RowsMirror(Unconfirm(t, id, v.live[id], disputes, clamp), NotLive(v, id))
  {
  }

  lemma UnconfirmUnclamped(t: Tables, v: View, base: map<Pair, nat>, id: nat, disputes: int, clamp: bool)
    requires Mirrors(t, v, base) && id in v.live && 0 <= disputes <= 1
    ensures Unconfirm(t, id, v.live[id], disputes, clamp) == Unconfirm(t, id, v.live[id], disputes, false)
  {
    var p := v.live[id];
    var scores := if disputes == 0 then t.scores else Bump(t.scores, p.agent, Scores(0, 0, 1, 0), clamp);
    assert ScoreExact(t.scores, v, p.agent) && DistinctExact(t.diversity, t.pairs, p.agent);
    assert PairExact(t.pairs, v, base, p);
    DisputeScores(t.scores, v, p.agent, p.agent, clamp);
    UnconfirmScores(scores, v, id, p.agent, clamp);
    UnconfirmPairs(t.pairs, v, base, id, p);
    PairDropped(t.diversity, t.pairs, p, clamp, p.agent);
  }

  /** What taking a confirmation back does to one account's counters. */
  lemma UnconfirmCounters(t: Tables, v: View, base: map<Pair, nat>, id: nat, disputes: int, clamp: bool, a: Address)
    requires id in v.live && 0 <= disputes <= 1
    requires var agent := v.live[id].agent;
      && ScoreExact(t.scores, v, a) && ScoreExact(t.scores, v, agent)
      && DistinctExact(t.diversity, t.pairs, a) && DistinctExact(t.diversity, t.pairs, agent)
    requires PairExact(t.pairs, v, base, v.live[id])
    ensures
      var t' := Unconfirm(t, id, v.live[id], disputes, clamp);
      ScoreExact(t'.scores, NotLive(v, id), a) && DistinctExact(t'.diversity, t'.pairs, a)
  {
    var p := v.live[id];
    var scores := if disputes == 0 then t.scores else Bump(t.scores, p.agent, Scores(0, 0, 1, 0), clamp);
    DisputeScores(t.scores, v, p.agent, a, clamp);
    DisputeScores(t.scores, v, p.agent, p.agent, clamp);
    UnconfirmScores(scores, v, id, a, clamp);
    UnconfirmPairs(t.pairs, v, base, id, p);
    PairDropped(t.diversity, t.pairs, p, clamp, a);
  }

  lemma UnconfirmMirrors(t: Tables, v: View, base: map<Pair, nat>, id: nat, disputes: int, clamp: bool)
    requires Mirrors(t, v, base) && id in v.live && 0 <= disputes <= 1
    ensures Mirrors(Unconfirm(t, id, v.live[id], disputes, clamp), NotLive(v, id), base)
    ensures Unconfirm(t, id, v.live[id], disputes, clamp) == Unconfirm(t, id, v.live[id], disputes, false)
  {
    var p := v.live[id];
    var t', v' := Unconfirm(t, id, p, disputes, clamp), NotLive(v, id);
    UnconfirmRows(t, v, id, disputes, clamp);
    UnconfirmUnclamped(t, v, base, id, disputes, clamp);
    assert PairExact(t.pairs, v, base, p);
    forall a
      ensures ScoreExact(t'.scores, v', a) && DistinctExact(t'.diversity, t'.pairs, a)
    {
      assert ScoreExact(t.scores, v, a) && ScoreExact(t.scores, v, p.agent);
      assert DistinctExact(t.diversity, t.pairs, a) && DistinctExact(t.diversity, t.pairs, p.agent);
      UnconfirmCounters(t, v, base, id, disputes, clamp, a);
    }
    forall q
      ensures PairExact(t'.pairs, v', base, q)
    {
      assert PairExact(t.pairs, v, base, q);
      UnconfirmPairs(t.pairs, v, base, id, q);
    }
  }

  lemma DisputeMirrors(t: Tables, v: View, base: map<Pair, nat>, id: nat, clamp: bool)
    requires Mirrors(t, v, base) && id in v.owner
    ensures Mirrors(Disputed(t, id, clamp), NotLive(v, id), base)
    ensures Disputed(t, id, clamp) == Disputed(t, id, false)
  {
    if id in v.live {
      UnconfirmMirrors(t, v, base, id, 1, clamp);
    } else {
      assert v.live - {id} == v.live;
      var agent := t.completions[id];
      forall a
        ensures ScoreExact(Bump(t.scores, agent, Scores(0, 0, 1, 0), clamp), v, a)
      {
        assert ScoreExact(t.scores, v, a) && ScoreExact(t.scores, v, agent);
        DisputeScores(t.scores, v, agent, a, clamp);
      }
      assert ScoreExact(t.scores, v, agent);
      DisputeScores(t.scores, v, agent, agent, clamp);
      assert forall a :: DistinctExact(t.diversity, t.pairs, a);
      assert forall p :: PairExact(t.pairs, v, base, p);
    }
  }

  lemma RevokeMirrors(t: Tables, v: View, base: map<Pair, nat>, id: nat, clamp: bool)
    requires Mirrors(t, v, base)
    ensures Mirrors(Revoked(t, id, clamp), NotLive(v, id), base)
    ensures Revoked(t, id, clamp) == Revoked(t, id, false)
  {
    if id in v.live {
      UnconfirmMirrors(t, v, base, id, 0, clamp);
    } else {
      assert v.live - {id} == v.live;
    }
  }

  /** A surviving completion row does not contradict the log's attestation. */
  predicate OwnerAgrees(t: Tables, e: Event)
  {
    e.SelfAttested? && e.id in t.completions ==> t.completions[e.id] == e.agent
  }

  /** One lawful log: the counters still equal the direct counts, and no clamp fired. */
  lemma LogMirrors(t: Tables, v: View, base: map<Pair, nat>, log: Log)
    requires Mirrors(t, v, base) && Lawful(v, log.event) && OwnerAgrees(t, log.event)
    ensures Mirrors(ApplyLog(t, log), Observe(v, log.event), base)
    ensures ApplyLog(t, log, true) == ApplyLog(t, log, false)
  {
    var e := log.event;
    if e.SelfAttested? {
      AttestMirrors(t, v, base, e.id, e.agent, log.ts);
    } else if e.ReceiptAttested? {
      ConfirmMirrors(t, v, base, e.id, Pair(e.agent, e.counterparty), log.ts);
    } else if e.ReceiptRevoked? {
      RevokeMirrors(t, v, base, e.id, true);
    } else if e.ChallengeResolved? && e.upheld {
      DisputeMirrors(t, v, base, e.id, true);
    } else {
      OtherLogs(t, log);
      SameCountersMirror(t, ApplyLog(t, log), v, base);
    }
  }

  /** The remaining events touch identities and capabilities only. */
  lemma OtherLogs(t: Tables, log: Log)
    requires !log.event.SelfAttested? && !log.event.ReceiptAttested? && !log.event.ReceiptRevoked?
    requires log.event.ChallengeResolved? ==> !log.event.upheld
    ensures SameCounters(t, ApplyLog(t, log))
    ensures ApplyLog(t, log, true) == ApplyLog(t, log, false)
  {
    if log.event.AgentRegistered? {
      assert ApplyLog(t, log) == t.(identity := t.identity[log.event.agent := log.event.metadataCID]);
    } else if !log.event.ChallengeResolved? {
      assert ApplyLog(t, log) == t.(capabilities := ApplyCapability(t.capabilities, log.event));
    }
  }

  predicate SameCounters(t: Tables, t': Tables)
  {
    && t'.scores == t.scores && t'.receipts == t.receipts && t'.pairs == t.pairs
    && t'.diversity == t.diversity && t'.completions == t.completions
  }

  lemma SameCountersMirror(t: Tables, t': Tables, v: View, base: map<Pair, nat>)
    requires Mirrors(t, v, base) && SameCounters(t, t')
    ensures Mirrors(t', v, base)
  {
    assert forall a :: ScoreExact(t.scores, v, a) && DistinctExact(t.diversity, t.pairs, a);
    assert forall p :: PairExact(t.pairs, v, base, p);
  }

  // ---- every lawful log ----

  lemma OneOwner(t: Tables, v: View, log: Log)
    requires t.completions == v.owner && Lawful(v, log.event)
    ensures ApplyLog(t, log).completions == Observe(v, log.event).owner
  {
    var e := log.event;
    if !e.SelfAttested? && !e.ReceiptAttested? && !e.ReceiptRevoked? && !(e.ChallengeResolved? && e.upheld) {
      OtherLogs(t, log);
    }
  }

  /** Completion rows hold nothing but what the logs attested. */
  lemma {:induction false} FreshOwners(logs: seq<Log>)
    requires LawfulLogs(logs)
    ensures Fold(NO_TABLES, logs).completions == ViewOf(logs).owner
  {
    if logs != [] {
      var n := |logs| - 1;
      LawfulPrefix(logs);
      FreshOwners(logs[..n]);
      assert Lawful(ViewOf(logs[..n]), logs[n].event);
      OneOwner(Fold(NO_TABLES, logs[..n]), ViewOf(logs[..n]), logs[n]);
    }
  }

  lemma LawfulPrefix(logs: seq<Log>)
    requires LawfulLogs(logs) && logs != []
    ensures LawfulLogs(logs[..|logs| - 1])
  {
    var n := |logs| - 1;
    forall m | 0 <= m < n
      ensures Lawful(ViewOf(logs[..n][..m]), logs[..n][m].event)
    {
      assert logs[..n][..m] == logs[..m];
      assert Lawful(ViewOf(logs[..m]), logs[m].event);
    }
  }

  /** A fresh index mirrors the chain after every lawful sequence of logs. */
  lemma {:induction false} IndexMirrorsChain(logs: seq<Log>)
    requires LawfulLogs(logs)
    ensures Mirrors(Fold(NO_TABLES, logs), ViewOf(logs), map[])
  {
    if logs == [] {
      assert forall a :: LiveOf(NO_VIEW, a) == {} && OwnedBy(NO_VIEW, a) == {};
      assert forall a :: Counterparties(map[], a) == {};
      assert forall p :: LiveFor(NO_VIEW, p) == {};
    } else {
      var n := |logs| - 1;
      LawfulPrefix(logs);
      IndexMirrorsChain(logs[..n]);
      FreshOwners(logs[..n]);
      assert Lawful(ViewOf(logs[..n]), logs[n].event);
      LogMirrors(Fold(NO_TABLES, logs[..n]), ViewOf(logs[..n]), map[], logs[n]);
    }
  }

  /** Sum of an agent's pair counts. */
  ghost function PairSum(pairs: map<Pair, nat>, a: Address): nat
  {
    var mine := Counterparties(pairs, a);
    if mine == {} then 0
    else
      var p :| p in mine;
      pairs[p] + PairSum(pairs - {p}, a)
  }

  lemma PairSumPick(pairs: map<Pair, nat>, a: Address, p: Pair)
    requires p in pairs && p.agent == a
    ensures PairSum(pairs, a) == pairs[p] + PairSum(pairs - {p}, a)
    decreases |pairs|
  {
    assert p in Counterparties(pairs, a);
    var q :| q in Counterparties(pairs, a) && PairSum(pairs, a) == pairs[q] + PairSum(pairs - {q}, a);
    if q != p {
      PairSumPick(pairs - {q}, a, p);
      PairSumPick(pairs - {p}, a, q);
      assert pairs - {q} - {p} == pairs - {p} - {q};
    }
  }

  ghost predicate PairsAreLive(pairs: map<Pair, nat>, v: View, a: Address)
  {
    forall p: Pair :: p.agent == a ==> PairCount(pairs, p) == |LiveFor(v, p)|
  }

  function OneFewer(pairs: map<Pair, nat>, p: Pair): map<Pair, nat>
    requires p in pairs && pairs[p] >= 1
  {
    pairs[p := pairs[p] - 1]
  }

  lemma OneFewerLive(pairs: map<Pair, nat>, v: View, a: Address, id: nat)
    requires PairsAreLive(pairs, v, a) && id in LiveOf(v, a)
    ensures v.live[id] in pairs && pairs[v.live[id]] >= 1
    ensures PairsAreLive(OneFewer(pairs, v.live[id]), NotLive(v, id), a)
  {
    assert id in LiveFor(v, v.live[id]);
    forall q: Pair | q.agent == a
      ensures PairCount(pairs[v.live[id] := pairs[v.live[id]] - 1], q) == |LiveFor(NotLive(v, id), q)|
    {
      LiveForRemoved(v, id, q);
    }
  }

  lemma OneFewerSum(pairs: map<Pair, nat>, a: Address, p: Pair)
    requires p in pairs && pairs[p] >= 1 && p.agent == a
    ensures PairSum(pairs, a) == PairSum(OneFewer(pairs, p), a) + 1
  {
    PairSumPick(pairs, a, p);
    PairSumPick(OneFewer(pairs, p), a, p);
    assert OneFewer(pairs, p) - {p} == pairs - {p};
  }

  /** If every pair count is the number of live receipts for it, their sum is the agent's live receipts. */
  lemma {:induction false} PairSumIsLive(pairs: map<Pair, nat>, v: View, a: Address)
    requires PairsAreLive(pairs, v, a)
    ensures PairSum(pairs, a) == |LiveOf(v, a)|
    decreases |LiveOf(v, a)|
  {
    if LiveOf(v, a) == {} {
      forall p | p in Counterparties(pairs, a)
        ensures pairs[p] == 0
      {
        assert LiveFor(v, p) <= LiveOf(v, a);
      }
      PairSumZero(pairs, a);
    } else {
      var id :| id in LiveOf(v, a);
      OneFewerLive(pairs, v, a, id);
      LiveOfRemoved(v, id, a);
      PairSumIsLive(OneFewer(pairs, v.live[id]), NotLive(v, id), a);
      OneFewerSum(pairs, a, v.live[id]);
    }
  }

  lemma {:induction false} PairSumZero(pairs: map<Pair, nat>, a: Address)
    requires forall p :: p in Counterparties(pairs, a) ==> pairs[p] == 0
    ensures PairSum(pairs, a) == 0
    decreases |pairs|
  {
    if Counterparties(pairs, a) != {} {
      var p :| p in Counterparties(pairs, a);
      PairSumPick(pairs, a, p);
      assert Counterparties(pairs - {p}, a) <= Counterparties(pairs, a);
      PairSumZero(pairs - {p}, a);
    }
  }

  /** The index agrees with counting by hand: the confirmed counter, the live
      receipts and the sum of the pair counts are one number; the distinct
      counter is the number of counterparties with a live receipt. */
  lemma CountersAgree(logs: seq<Log>, a: Address)
    requires LawfulLogs(logs)
    ensures
      var t := Fold(NO_TABLES, logs);
      var v := ViewOf(logs);
      && ConfirmedOf(t.scores, a) == |LiveOf(v, a)| == PairSum(t.pairs, a)
      && CompletionsOf(t.scores, a) == |OwnedBy(v, a)|
      && Distinct(t.diversity, a) == |Counterparties(t.pairs, a)|
      && (forall p :: p in t.pairs <==> LiveFor(v, p) != {})
      && (forall p :: p in t.pairs ==> t.pairs[p] == |LiveFor(v, p)|)
  {
    IndexMirrorsChain(logs);
    var t, v := Fold(NO_TABLES, logs), ViewOf(logs);
    assert ScoreExact(t.scores, v, a) && DistinctExact(t.diversity, t.pairs, a);
    forall p
      ensures PairCount(t.pairs, p) == |LiveFor(v, p)| && (p in t.pairs ==> t.pairs[p] >= 1)
    {
      assert PairExact(t.pairs, v, map[], p);
    }
    PairSumIsLive(t.pairs, v, a);
  }

  /** Folding without the clamps. */
  function FoldUnclamped(t: Tables, logs: seq<Log>): Tables
  {
    if logs == [] then t else ApplyLog(FoldUnclamped(t, logs[..|logs| - 1]), logs[|logs| - 1], false)
  }

  /** On lawful logs neither MAX(0, ...) ever changes a stored value. */
  lemma {:induction false} ClampsNeverFire(logs: seq<Log>)
    requires LawfulLogs(logs)
    ensures Fold(NO_TABLES, logs) == FoldUnclamped(NO_TABLES, logs)
  {
    if logs != [] {
      var n := |logs| - 1;
      LawfulPrefix(logs);
      ClampsNeverFire(logs[..n]);
      IndexMirrorsChain(logs[..n]);
      FreshOwners(logs[..n]);
      assert Lawful(ViewOf(logs[..n]), logs[n].event);
      LogMirrors(Fold(NO_TABLES, logs[..n]), ViewOf(logs[..n]), map[], logs[n]);
    }
  }

  // ---- dispute counters ----

  function DisputesOf(scores: map<Address, Scores>, a: Address): int
  {
    if a in scores then scores[a].disputes else 0
  }

  lemma DisputeCharged(t: Tables, id: nat, a: Address)
    requires id in t.completions
    ensures DisputesOf(Disputed(t, id, true).scores, a)
         == DisputesOf(t.scores, a) + (if a == t.completions[id] then 1 else 0)
  {
  }

  /** Upheld rulings among `logs` on completions that `a` owned when they were ruled on. */
  function RulingsAgainst(logs: seq<Log>, a: Address): nat
  {
    if logs == [] then 0
    else
      var before := logs[..|logs| - 1];
      RulingsAgainst(before, a) + (if RuledAgainst(ViewOf(before), logs[|logs| - 1].event, a) then 1 else 0)
  }

  predicate RuledAgainst(v: View, e: Event, a: Address)
  {
    e.ChallengeResolved? && e.upheld && e.id in v.owner && v.owner[e.id] == a
  }

  lemma RulingCounted(t: Tables, v: View, log: Log, a: Address)
    requires t.completions == v.owner && Lawful(v, log.event)
    ensures DisputesOf(ApplyLog(t, log).scores, a)
         == DisputesOf(t.scores, a) + (if RuledAgainst(v, log.event, a) then 1 else 0)
  {
    var e := log.event;
    if e.ChallengeResolved? && e.upheld {
      DisputeCharged(t, e.id, a);
    } else if !e.SelfAttested? && !e.ReceiptAttested? && !e.ReceiptRevoked? {
      OtherLogs(t, log);
    }
  }

  /** The dispute counter is the number of upheld rulings against the agent. */
  lemma {:induction false} DisputesAreRulings(logs: seq<Log>, a: Address)
    requires LawfulLogs(logs)
    ensures DisputesOf(Fold(NO_TABLES, logs).scores, a) == RulingsAgainst(logs, a)
  {
    if logs != [] {
      var n := |logs| - 1;
      LawfulPrefix(logs);
      DisputesAreRulings(logs[..n], a);
      FreshOwners(logs[..n]);
      assert Lawful(ViewOf(logs[..n]), logs[n].event);
      RulingCounted(Fold(NO_TABLES, logs[..n]), ViewOf(logs[..n]), logs[n], a);
    }
  }

  // ---- activity times and identities ----

  function LastActivityOf(scores: map<Address, Scores>, a: Address): int
  {
    if a in scores then scores[a].lastActivity else 0
  }

  /** An attestation by `a`, or a receipt for it. */
  predicate ActivityOf(e: Event, a: Address)
  {
    (e.SelfAttested? && e.agent == a) || (e.ReceiptAttested? && e.agent == a)
  }

  /** The latest block time at which `a` was active, zero if never. */
  function LatestActivity(logs: seq<Log>, a: Address): nat
  {
    if logs == [] then 0
    else
      var last := logs[|logs| - 1];
      var before := LatestActivity(logs[..|logs| - 1], a);
      if ActivityOf(last.event, a) && last.ts > before then last.ts else before
  }

  lemma ActivityMoves(t: Tables, log: Log, a: Address)
    requires LastActivityOf(t.scores, a) >= 0
    ensures LastActivityOf(ApplyLog(t, log).scores, a)
         == if ActivityOf(log.event, a) then Max(LastActivityOf(t.scores, a), log.ts) else LastActivityOf(t.scores, a)
  {
    var e := log.event;
    if e.ReceiptRevoked? {
      RevokeKeepsActivity(t, e.id, a);
    } else if e.ChallengeResolved? && e.upheld {
      DisputeKeepsActivity(t, e.id, a);
    } else if !e.SelfAttested? && !e.ReceiptAttested? {
      OtherLogs(t, log);
    }
  }

  lemma RevokeKeepsActivity(t: Tables, id: nat, a: Address)
    requires LastActivityOf(t.scores, a) >= 0
    ensures LastActivityOf(Revoked(t, id, true).scores, a) == LastActivityOf(t.scores, a)
  {
  }

  lemma DisputeKeepsActivity(t: Tables, id: nat, a: Address)
    requires LastActivityOf(t.scores, a) >= 0
    ensures LastActivityOf(Disputed(t, id, true).scores, a) == LastActivityOf(t.scores, a)
  {
  }

  /** Rulings and revocations never look like activity. */
  lemma {:induction false} ActivityIsLatest(logs: seq<Log>, a: Address)
    ensures LastActivityOf(Fold(NO_TABLES, logs).scores, a) == LatestActivity(logs, a)
  {
    if logs != [] {
      var n := |logs| - 1;
      ActivityIsLatest(logs[..n], a);
      ActivityMoves(Fold(NO_TABLES, logs[..n]), logs[n], a);
    }
  }
}
