/** What a reorg rebuild restores, and what it does not. The replay starts from
    tables that are only partly cleared, so each result is compared with a
    fresh fold of the canonical logs. */
module Reorg {

  import opened Parties
  import opened IndexDb
  import opened IndexMirror

  /** Every upheld ruling is on a completion whose surviving row, if there is
      one, names the agent the canonical chain names. */
  ghost predicate RulingsAgree(survivors: map<nat, Address>, logs: seq<Log>)
  {
    forall n :: 0 <= n < |logs| ==> RulingAgrees(survivors, ViewOf(logs[..n]), logs[n].event)
  }

  predicate RulingAgrees(survivors: map<nat, Address>, v: View, e: Event)
  {
    e.ChallengeResolved? && e.upheld && e.id in survivors ==> e.id in v.owner && survivors[e.id] == v.owner[e.id]
  }

  lemma RulingsAgreePrefix(survivors: map<nat, Address>, logs: seq<Log>)
    requires RulingsAgree(survivors, logs) && logs != []
    ensures RulingsAgree(survivors, logs[..|logs| - 1])
    ensures RulingAgrees(survivors, ViewOf(logs[..|logs| - 1]), logs[|logs| - 1].event)
  {
    var n := |logs| - 1;
    forall m | 0 <= m < n
      ensures RulingAgrees(survivors, ViewOf(logs[..n][..m]), logs[..n][m].event)
    {
      assert logs[..n][..m] == logs[..m];
      assert RulingAgrees(survivors, ViewOf(logs[..m]), logs[m].event);
    }
  }

  /** Completion rows after a replay: survivors win over the canonical attestation. */
  ghost predicate RowsOver(survivors: map<nat, Address>, replayed: map<nat, Address>, canonical: map<nat, Address>)
  {
    forall id :: id in canonical ==>
      id in replayed && replayed[id] == if id in survivors then survivors[id] else canonical[id]
  }

  /** The tables the rebuild is for. */
  predicate SameRebuilt(t: Tables, f: Tables)
  {
    t.scores == f.scores && t.receipts == f.receipts && t.identity == f.identity
  }

  lemma {:induction false} RowsSurvive(d: Tables, logs: seq<Log>)
    ensures forall id :: id in d.completions ==>
              id in Fold(d, logs).completions && Fold(d, logs).completions[id] == d.completions[id]
  {
    if logs != [] {
      RowsSurvive(d, logs[..|logs| - 1]);
      RowsOnlyGrow(Fold(d, logs[..|logs| - 1]), logs[|logs| - 1]);
    }
  }

  lemma RowsOnlyGrow(t: Tables, log: Log)
    ensures ApplyLog(t, log).completions
         == if log.event.SelfAttested? && log.event.id !in t.completions
            then t.completions[log.event.id := log.event.agent] else t.completions
  {
    var e := log.event;
    if !e.SelfAttested? && !e.ReceiptAttested? && !e.ReceiptRevoked? && !(e.ChallengeResolved? && e.upheld) {
      OtherLogs(t, log);
    }
  }

  lemma UnconfirmSame(t: Tables, f: Tables, id: nat, p: Pair, disputes: int)
    requires SameRebuilt(t, f)
    ensures SameRebuilt(Unconfirm(t, id, p, disputes, true), Unconfirm(f, id, p, disputes, true))
  {
  }

  lemma DisputedSame(t: Tables, f: Tables, id: nat)
    requires SameRebuilt(t, f)
    requires id in t.completions && id in f.completions && t.completions[id] == f.completions[id]
    ensures SameRebuilt(Disputed(t, id, true), Disputed(f, id, true))
  {
    if id in t.receipts {
      UnconfirmSame(t, f, id, Pair(t.completions[id], t.receipts[id].counterparty), 1);
    }
  }

  lemma RevokedSame(t: Tables, f: Tables, id: nat)
    requires SameRebuilt(t, f)
    ensures SameRebuilt(Revoked(t, id, true), Revoked(f, id, true))
  {
    if id in t.receipts {
      UnconfirmSame(t, f, id, Pair(t.receipts[id].agent, t.receipts[id].counterparty), 0);
    }
  }

  lemma AttestedSame(t: Tables, f: Tables, id: nat, agent: Address, ts: nat)
    requires SameRebuilt(t, f)
    ensures SameRebuilt(Attested(t, id, agent, ts), Attested(f, id, agent, ts))
  {
  }

  lemma ConfirmedSame(t: Tables, f: Tables, id: nat, p: Pair, ts: nat)
    requires SameRebuilt(t, f)
    ensures SameRebuilt(Confirmed(t, id, p, ts), Confirmed(f, id, p, ts))
  {
  }

  /** Identities change by registrations alone. */
  lemma IdentityMoves(t: Tables, log: Log)
    ensures ApplyLog(t, log).identity
         == if log.event.AgentRegistered? then t.identity[log.event.agent := log.event.metadataCID] else t.identity
  {
    var e := log.event;
    if e.ReceiptRevoked? {
      assert Revoked(t, e.id, true).identity == t.identity;
    } else if e.ChallengeResolved? && e.upheld {
      assert Disputed(t, e.id, true).identity == t.identity;
    } else if !e.SelfAttested? && !e.ReceiptAttested? && !e.AgentRegistered? && !e.ChallengeResolved? {
      assert ApplyLog(t, log) == t.(capabilities := ApplyCapability(t.capabilities, e));
    }
  }

  lemma OthersSame(t: Tables, f: Tables, log: Log)
    requires SameRebuilt(t, f)
    requires !log.event.SelfAttested? && !log.event.ReceiptAttested? && !log.event.ReceiptRevoked?
    requires log.event.ChallengeResolved? ==> !log.event.upheld
    ensures SameRebuilt(ApplyLog(t, log), ApplyLog(f, log))
  {
    OtherLogs(t, log);
    OtherLogs(f, log);
    IdentityMoves(t, log);
    IdentityMoves(f, log);
  }

  /** One replayed log does to the cleared tables what it does to fresh ones. */
  lemma ReplayStep(t: Tables, f: Tables, log: Log, survivors: map<nat, Address>, v: View)
    requires SameRebuilt(t, f) && f.completions == v.owner
    requires RowsOver(survivors, t.completions, f.completions)
    requires Lawful(v, log.event) && RulingAgrees(survivors, v, log.event)
    ensures SameRebuilt(ApplyLog(t, log), ApplyLog(f, log))
  {
    var e := log.event;
    if e.SelfAttested? {
      AttestedSame(t, f, e.id, e.agent, log.ts);
    } else if e.ReceiptAttested? {
      ConfirmedSame(t, f, e.id, Pair(e.agent, e.counterparty), log.ts);
    } else if e.ReceiptRevoked? {
      RevokedSame(t, f, e.id);
    } else if e.ChallengeResolved? && e.upheld {
      assert e.id in f.completions;
      DisputedSame(t, f, e.id);
    } else {
      OthersSame(t, f, log);
    }
  }

  lemma ReplayRowsStep(t: Tables, f: Tables, log: Log, survivors: map<nat, Address>, v: View)
    requires f.completions == v.owner && Lawful(v, log.event)
    requires RowsOver(survivors, t.completions, f.completions)
    requires forall id :: id in survivors ==> id in t.completions && t.completions[id] == survivors[id]
    requires forall id :: id in t.completions ==> id in survivors || id in f.completions
    ensures RowsOver(survivors, ApplyLog(t, log).completions, ApplyLog(f, log).completions)
    ensures forall id :: id in ApplyLog(t, log).completions ==> id in survivors || id in ApplyLog(f, log).completions
  {
    RowsOnlyGrow(t, log);
    RowsOnlyGrow(f, log);
  }

  lemma {:induction false} ReplayRows(d: Tables, logs: seq<Log>)
    requires LawfulLogs(logs)
    ensures RowsOver(d.completions, Fold(Reset(d), logs).completions, Fold(NO_TABLES, logs).completions)
    ensures forall id :: id in Fold(Reset(d), logs).completions ==>
              id in d.completions || id in Fold(NO_TABLES, logs).completions
  {
    if logs != [] {
      var n := |logs| - 1;
      LawfulPrefix(logs);
      ReplayRows(d, logs[..n]);
      FreshOwners(logs[..n]);
      RowsSurvive(Reset(d), logs[..n]);
      assert Lawful(ViewOf(logs[..n]), logs[n].event);
      ReplayRowsStep(Fold(Reset(d), logs[..n]), Fold(NO_TABLES, logs[..n]), logs[n], d.completions, ViewOf(logs[..n]));
    }
  }

  /** Replaying the canonical logs restores scores, receipts and identities to
      exactly a fresh fold, whatever the abandoned fork left behind, provided
      rulings land on completions that kept their agent. */
  lemma {:induction false} RebuildRestores(d: Tables, logs: seq<Log>)
    requires LawfulLogs(logs) && RulingsAgree(d.completions, logs)
    ensures SameRebuilt(Fold(Reset(d), logs), Fold(NO_TABLES, logs))
  {
    if logs != [] {
      var n := |logs| - 1;
      LawfulPrefix(logs);
      RulingsAgreePrefix(d.completions, logs);
      RebuildRestores(d, logs[..n]);
      ReplayRows(d, logs[..n]);
      FreshOwners(logs[..n]);
      assert Lawful(ViewOf(logs[..n]), logs[n].event);
      ReplayStep(Fold(Reset(d), logs[..n]), Fold(NO_TABLES, logs[..n]), logs[n], d.completions, ViewOf(logs[..n]));
    }
  }

  /** The rebuild result for a first part of the canonical logs. */
  lemma RebuildRestoresPrefix(d: Tables, logs: seq<Log>, k: nat)
    requires LawfulLogs(logs) && RulingsAgree(d.completions, logs) && k <= |logs|
    ensures SameRebuilt(Fold(Reset(d), logs[..k]), Fold(NO_TABLES, logs[..k]))
  {
    LawfulTake(logs, k);
    AgreeTake(logs, d.completions, k);
    RebuildRestores(d, logs[..k]);
  }

  lemma LawfulTake(logs: seq<Log>, k: nat)
    requires LawfulLogs(logs) && k <= |logs|
    ensures LawfulLogs(logs[..k])
  {
    forall n | 0 <= n < k
      ensures Lawful(ViewOf(logs[..k][..n]), logs[..k][n].event)
    {
      assert logs[..k][..n] == logs[..n];
    }
  }

  lemma AgreeTake(logs: seq<Log>, survivors: map<nat, Address>, k: nat)
    requires RulingsAgree(survivors, logs) && k <= |logs|
    ensures RulingsAgree(survivors, logs[..k])
  {
    forall n | 0 <= n < k
      ensures RulingAgrees(survivors, ViewOf(logs[..k][..n]), logs[..k][n].event)
    {
      assert logs[..k][..n] == logs[..n];
    }
  }

  /** The rebuild is right after the first `k` canonical logs. */
  ghost predicate RebuiltAt(d: Tables, logs: seq<Log>, k: nat)
    requires k <= |logs|
  {
    SameRebuilt(Fold(Reset(d), logs[..k]), Fold(NO_TABLES, logs[..k]))
  }

  /** A ruling charged to two different agents shows in the scores. */
  lemma RulingShows(t: Tables, f: Tables, id: nat)
    requires id in t.completions && id in f.completions && t.scores == f.scores
    ensures Disputed(t, id, true).scores == Disputed(f, id, true).scores ==> t.completions[id] == f.completions[id]
  {
    DisputeCharged(t, id, t.completions[id]);
    DisputeCharged(f, id, t.completions[id]);
  }

  lemma FoldStep(t: Tables, logs: seq<Log>, n: nat)
    requires n < |logs|
    ensures Fold(t, logs[..n + 1]) == ApplyLog(Fold(t, logs[..n]), logs[n])
  {
    assert logs[..n + 1][..n] == logs[..n];
  }

  lemma RulingAgreesIfRebuilt(d: Tables, logs: seq<Log>, n: nat)
    requires LawfulLogs(logs) && n < |logs| && RebuiltAt(d, logs, n) && RebuiltAt(d, logs, n + 1)
    ensures RulingAgrees(d.completions, ViewOf(logs[..n]), logs[n].event)
  {
    var e := logs[n].event;
    if e.ChallengeResolved? && e.upheld && e.id in d.completions {
      assert Lawful(ViewOf(logs[..n]), e);
      LawfulTake(logs, n);
      ReplayRows(d, logs[..n]);
      FreshOwners(logs[..n]);
      FoldStep(Reset(d), logs, n);
      FoldStep(NO_TABLES, logs, n);
      RulingShows(Fold(Reset(d), logs[..n]), Fold(NO_TABLES, logs[..n]), e.id);
    }
  }

  /** The proviso is exact: the rebuild is right after every canonical log if and
      only if no upheld ruling meets a surviving row that names another agent. */
  lemma RebuiltThroughoutIff(d: Tables, logs: seq<Log>)
    requires LawfulLogs(logs)
    ensures (forall k :: 0 <= k <= |logs| ==> RebuiltAt(d, logs, k)) <==> RulingsAgree(d.completions, logs)
  {
    if RulingsAgree(d.completions, logs) {
      forall k | 0 <= k <= |logs|
        ensures RebuiltAt(d, logs, k)
      {
        RebuildRestoresPrefix(d, logs, k);
      }
    }
    if forall k :: 0 <= k <= |logs| ==> RebuiltAt(d, logs, k) {
      forall n | 0 <= n < |logs|
        ensures RulingAgrees(d.completions, ViewOf(logs[..n]), logs[n].event)
      {
        assert RebuiltAt(d, logs, n) && RebuiltAt(d, logs, n + 1);
        RulingAgreesIfRebuilt(d, logs, n);
      }
    }
  }

  // ---- the pair counts and the distinct counts ----

  /** Replayed pair counts sit on top of the surviving ones. */
  ghost predicate PairsStacked(t: map<Pair, nat>, f: map<Pair, nat>, base: map<Pair, nat>)
  {
    && (forall p :: PairCount(t, p) == PairCount(base, p) + PairCount(f, p))
    && (forall p :: p in t ==> t[p] >= 1)
  }

  ghost predicate DistinctSound(t: Tables)
  {
    forall a :: DistinctExact(t.diversity, t.pairs, a)
  }

  lemma AddStacked(t: map<Pair, nat>, f: map<Pair, nat>, base: map<Pair, nat>, p: Pair)
    requires PairsStacked(t, f, base)
    ensures PairsStacked(AddPair(t, p), AddPair(f, p), base)
  {
    assert PairCount(t, p) == PairCount(base, p) + PairCount(f, p);
  }

  lemma DropStacked(t: map<Pair, nat>, f: map<Pair, nat>, base: map<Pair, nat>, p: Pair)
    requires PairsStacked(t, f, base) && PairCount(f, p) >= 1
    ensures PairsStacked(DropPair(t, p), DropPair(f, p), base)
    ensures p in t && t[p] >= 1
  {
    assert PairCount(t, p) == PairCount(base, p) + PairCount(f, p);
  }

  /** The pair a log confirms or takes back, given what is live. */
  function PairTouched(v: View, e: Event): Option<Pair>
  {
    match e
    case ReceiptAttested(id, agent, counterparty) => Some(Pair(agent, counterparty))
    case ReceiptRevoked(id) => if id in v.live then Some(v.live[id]) else None
    case ChallengeResolved(id, upheld) => if upheld && id in v.live then Some(v.live[id]) else None
    case _ => None
  }

  /** On tables whose receipts mirror the chain, a log moves exactly that pair. */
  lemma LogMovesPair(t: Tables, v: View, log: Log)
    requires Lawful(v, log.event)
    requires t.receipts.Keys == v.live.Keys
    requires forall id :: id in v.live ==> Pair(t.receipts[id].agent, t.receipts[id].counterparty) == v.live[id]
    requires forall id :: id in v.live ==> id in v.owner && v.owner[id] == v.live[id].agent
    requires log.event.ChallengeResolved? && log.event.upheld ==>
               log.event.id in t.completions && t.completions[log.event.id] == v.owner[log.event.id]
    ensures
      var p := PairTouched(v, log.event);
      var t' := ApplyLog(t, log);
      if p.None? then t'.pairs == t.pairs && t'.diversity == t.diversity
      else if log.event.ReceiptAttested? then
        t'.pairs == AddPair(t.pairs, p.value) && t'.diversity == AddDistinct(t.diversity, t.pairs, p.value)
      else
        t'.pairs == DropPair(t.pairs, p.value) && t'.diversity == DropDistinct(t.diversity, t.pairs, p.value, true)
  {
    var e := log.event;
    if !e.SelfAttested? && !e.ReceiptAttested? && !e.ReceiptRevoked? && !(e.ChallengeResolved? && e.upheld) {
      OtherLogs(t, log);
    }
  }

  lemma StackedStep(t: Tables, f: Tables, base: map<Pair, nat>, v: View, log: Log)
    requires SameRebuilt(t, f) && Mirrors(f, v, map[]) && f.completions == v.owner
    requires Lawful(v, log.event)
    requires log.event.ChallengeResolved? && log.event.upheld ==>
               log.event.id in t.completions && t.completions[log.event.id] == v.owner[log.event.id]
    requires PairsStacked(t.pairs, f.pairs, base) && DistinctSound(t)
    ensures PairsStacked(ApplyLog(t, log).pairs, ApplyLog(f, log).pairs, base)
    ensures DistinctSound(ApplyLog(t, log))
  {
    LogMovesPair(t, v, log);
    LogMovesPair(f, v, log);
    var touched := PairTouched(v, log.event);
    if touched.None? {
      assert forall a :: DistinctExact(t.diversity, t.pairs, a);
    } else if log.event.ReceiptAttested? {
      AddStacked(t.pairs, f.pairs, base, touched.value);
      forall a
        ensures DistinctExact(ApplyLog(t, log).diversity, ApplyLog(t, log).pairs, a)
      {
        assert DistinctExact(t.diversity, t.pairs, a);
        PairAdded(t.diversity, t.pairs, touched.value, a);
      }
    } else {
      var p := touched.value;
      assert PairExact(f.pairs, v, map[], p);
      assert log.event.id in LiveFor(v, p);
      DropStacked(t.pairs, f.pairs, base, p);
      forall a
        ensures DistinctExact(ApplyLog(t, log).diversity, ApplyLog(t, log).pairs, a)
      {
        assert DistinctExact(t.diversity, t.pairs, a) && DistinctExact(t.diversity, t.pairs, p.agent);
        PairDropped(t.diversity, t.pairs, p, true, a);
      }
    }
  }

  /** What survived the reset is counted again on top of the replay. */
  lemma {:induction false} PairsStackUp(d: Tables, logs: seq<Log>)
    requires LawfulLogs(logs) && RulingsAgree(d.completions, logs)
    requires DistinctSound(d) && forall p :: p in d.pairs ==> d.pairs[p] >= 1
    ensures PairsStacked(Fold(Reset(d), logs).pairs, Fold(NO_TABLES, logs).pairs, d.pairs)
    ensures DistinctSound(Fold(Reset(d), logs))
  {
    if logs == [] {
      assert forall a :: DistinctExact(d.diversity, d.pairs, a);
    } else {
      var n := |logs| - 1;
      LawfulPrefix(logs);
      RulingsAgreePrefix(d.completions, logs);
      PairsStackUp(d, logs[..n]);
      RebuildRestores(d, logs[..n]);
      ReplayRows(d, logs[..n]);
      IndexMirrorsChain(logs[..n]);
      FreshOwners(logs[..n]);
      var v := ViewOf(logs[..n]);
      assert Lawful(v, logs[n].event);
      StackedStep(Fold(Reset(d), logs[..n]), Fold(NO_TABLES, logs[..n]), d.pairs, v, logs[n]);
    }
  }

  /** The rebuilt pair counts are right exactly when no pair count survived the reset. */
  lemma PairsRebuiltIffNoneSurvived(d: Tables, logs: seq<Log>)
    requires LawfulLogs(logs) && RulingsAgree(d.completions, logs)
    requires DistinctSound(d) && forall p :: p in d.pairs ==> d.pairs[p] >= 1
    ensures Fold(Reset(d), logs).pairs == Fold(NO_TABLES, logs).pairs <==> d.pairs == map[]
  {
    PairsStackUp(d, logs);
    IndexMirrorsChain(logs);
    var t, f := Fold(Reset(d), logs).pairs, Fold(NO_TABLES, logs).pairs;
    forall p
      ensures PairCount(t, p) == PairCount(d.pairs, p) + PairCount(f, p)
      ensures p in f ==> f[p] >= 1
    {
      assert PairExact(f, ViewOf(logs), map[], p);
    }
    if t == f {
      forall p
        ensures p !in d.pairs
      {
        assert PairCount(d.pairs, p) == 0;
      }
    }
    if d.pairs == map[] {
      forall p
        ensures p in t <==> p in f
        ensures p in t ==> t[p] == f[p]
      {
        assert PairCount(t, p) == PairCount(f, p);
      }
    }
  }

  /** The rebuilt credit signal of an agent is right exactly when each of its
      surviving counterparties has a live receipt on the canonical chain too. */
  lemma CreditRebuiltIff(d: Tables, logs: seq<Log>, a: Address)
    requires LawfulLogs(logs) && RulingsAgree(d.completions, logs)
    requires DistinctSound(d) && forall p :: p in d.pairs ==> d.pairs[p] >= 1
    ensures Distinct(Fold(Reset(d), logs).diversity, a) == Distinct(Fold(NO_TABLES, logs).diversity, a)
       <==> forall p :: p in Counterparties(d.pairs, a) ==> LiveFor(ViewOf(logs), p) != {}
  {
    PairsStackUp(d, logs);
    IndexMirrorsChain(logs);
    var t, f := Fold(Reset(d), logs), Fold(NO_TABLES, logs);
    var v := ViewOf(logs);
    assert DistinctExact(t.diversity, t.pairs, a) && DistinctExact(f.diversity, f.pairs, a);
    forall p
      ensures p in t.pairs <==> p in d.pairs || p in f.pairs
      ensures p in f.pairs <==> LiveFor(v, p) != {}
    {
      assert PairExact(f.pairs, v, map[], p);
      assert PairCount(t.pairs, p) == PairCount(d.pairs, p) + PairCount(f.pairs, p);
    }
    var mine, lived := Counterparties(t.pairs, a), Counterparties(f.pairs, a);
    assert mine == Counterparties(d.pairs, a) + lived;
    SameSizeIffSubset(Counterparties(d.pairs, a), lived);
  }

  lemma SameSizeIffSubset(extra: set<Pair>, s: set<Pair>)
    ensures |extra + s| == |s| <==> extra <= s
  {
    assert extra + s == s + (extra - s);
    if extra <= s {
      assert extra - s == {};
    }
  }
}
