/** What schedules with rebuilds make of the tables: the cleared tables are one
    fold of the canonical logs whenever none was passed over, and the pair counts
    are one fold for every time the chain was replayed. */
module Rebuilds {

  import opened Parties
  import opened IndexDb
  import opened IndexMirror
  import opened ChainLogs
  import opened IndexTrail
  import opened IndexHistory
  import opened Reorg
  import opened Indexer

  /** The canonical logs from block `startBlock` on. */
  function Canonical(chain: seq<Log>, startBlock: nat): seq<Log>
  {
    chain[Base(chain, startBlock)..]
  }

  // ---- rows that survive ----

  /** Every row was there in the beginning, or names the owner the canonical chain names. */
  ghost predicate RowsFrom(rows: map<nat, Address>, seed: map<nat, Address>, owner: map<nat, Address>)
  {
    forall id :: id in rows ==> (id in seed && rows[id] == seed[id]) || (id in owner && rows[id] == owner[id])
  }

  lemma {:induction false} OwnersGrow(logs: seq<Log>, k: nat)
    requires LawfulLogs(logs) && k <= |logs|
    ensures forall id :: id in ViewOf(logs[..k]).owner ==>
              id in ViewOf(logs).owner && ViewOf(logs).owner[id] == ViewOf(logs[..k]).owner[id]
    decreases |logs|
  {
    if k == |logs| {
      assert logs[..k] == logs;
    } else {
      var n := |logs| - 1;
      LawfulPrefix(logs);
      OwnersGrow(logs[..n], k);
      assert logs[..n][..k] == logs[..k];
      assert Lawful(ViewOf(logs[..n]), logs[n].event);
    }
  }

  lemma AttestedIsOwner(logs: seq<Log>, k: nat)
    requires LawfulLogs(logs) && k < |logs| && logs[k].event.SelfAttested?
    ensures logs[k].event.id in ViewOf(logs).owner && ViewOf(logs).owner[logs[k].event.id] == logs[k].event.agent
  {
    assert logs[..k + 1][..k] == logs[..k];
    assert ViewOf(logs[..k + 1]) == Observe(ViewOf(logs[..k]), logs[k].event);
    OwnersGrow(logs, k + 1);
  }

  predicate AttestsOwner(e: Event, owner: map<nat, Address>)
  {
    e.SelfAttested? ==> e.id in owner && owner[e.id] == e.agent
  }

  /** Each attestation among these logs is the owner's. */
  ghost predicate AttestsOwners(logs: seq<Log>, owner: map<nat, Address>)
  {
    forall i :: 0 <= i < |logs| ==> AttestsOwner(logs[i].event, owner)
  }

  lemma LawfulAttestsOwners(logs: seq<Log>)
    requires LawfulLogs(logs)
    ensures AttestsOwners(logs, ViewOf(logs).owner)
  {
    var owner := ViewOf(logs).owner;
    forall i | 0 <= i < |logs|
      ensures AttestsOwner(logs[i].event, owner)
    {
      if logs[i].event.SelfAttested? {
        AttestedIsOwner(logs, i);
      }
    }
  }

  lemma {:induction false} FoldRowsFrom(t: Tables, part: seq<Log>, seed: map<nat, Address>, owner: map<nat, Address>)
    requires AttestsOwners(part, owner) && RowsFrom(t.completions, seed, owner)
    ensures RowsFrom(Fold(t, part).completions, seed, owner)
  {
    if part != [] {
      var n := |part| - 1;
      FoldRowsFrom(t, part[..n], seed, owner);
      RowsOnlyGrow(Fold(t, part[..n]), part[n]);
    }
  }

  lemma {:induction false} ReplayRowsFrom(seed: Tables, chain: seq<Log>, startBlock: nat, pieces: seq<Piece>)
    requires LawfulLogs(Canonical(chain, startBlock)) && PiecesOk(pieces, chain, startBlock)
    ensures RowsFrom(Replay(seed, chain, pieces).completions, seed.completions,
                     ViewOf(Canonical(chain, startBlock)).owner)
  {
    if pieces != [] {
      var n := |pieces| - 1;
      ReplayRowsFrom(seed, chain, startBlock, pieces[..n]);
      PieceRowsFrom(SeedOf(seed, chain, pieces), chain, startBlock, pieces[n], seed.completions);
    }
  }

  /** A piece of the chain is a piece of its canonical part. */
  lemma PieceOfCanonical(chain: seq<Log>, startBlock: nat, lo: nat, hi: nat)
    requires Base(chain, startBlock) <= lo <= hi <= |chain|
    ensures var base := Base(chain, startBlock);
      Cut(chain, lo, hi) == Canonical(chain, startBlock)[lo - base..hi - base]
  {
  }

  lemma SliceAttestsOwners(logs: seq<Log>, owner: map<nat, Address>, lo: nat, hi: nat)
    requires AttestsOwners(logs, owner) && lo <= hi <= |logs|
    ensures AttestsOwners(logs[lo..hi], owner)
  {
  }

  lemma PieceRowsFrom(t: Tables, chain: seq<Log>, startBlock: nat, p: Piece, seed: map<nat, Address>)
    requires LawfulLogs(Canonical(chain, startBlock)) && Base(chain, startBlock) <= p.lo <= p.hi <= |chain|
    requires RowsFrom(t.completions, seed, ViewOf(Canonical(chain, startBlock)).owner)
    ensures RowsFrom(Fold(t, Cut(chain, p.lo, p.hi)).completions, seed, ViewOf(Canonical(chain, startBlock)).owner)
  {
    var base, logs := Base(chain, startBlock), Canonical(chain, startBlock);
    LawfulAttestsOwners(logs);
    PieceOfCanonical(chain, startBlock, p.lo, p.hi);
    SliceAttestsOwners(logs, ViewOf(logs).owner, p.lo - base, p.hi - base);
    FoldRowsFrom(t, Cut(chain, p.lo, p.hi), seed, ViewOf(logs).owner);
  }

  /** Rulings that agree with the rows in the beginning agree with them ever after. */
  lemma AgreementLasts(rows: map<nat, Address>, seed: map<nat, Address>, logs: seq<Log>)
    requires LawfulLogs(logs) && RulingsAgree(seed, logs) && RowsFrom(rows, seed, ViewOf(logs).owner)
    ensures RulingsAgree(rows, logs)
  {
    forall n | 0 <= n < |logs|
      ensures RulingAgrees(rows, ViewOf(logs[..n]), logs[n].event)
    {
      assert RulingAgrees(seed, ViewOf(logs[..n]), logs[n].event);
      assert Lawful(ViewOf(logs[..n]), logs[n].event);
      OwnersGrow(logs, n);
    }
  }

  // ---- the cleared tables ----

  lemma ReplayIsFold(seed: Tables, chain: seq<Log>, startBlock: nat, pieces: seq<Piece>)
    requires pieces != [] && PiecesOk(pieces, chain, startBlock)
    requires pieces[|pieces| - 1].lo == Base(chain, startBlock)
    ensures var k := pieces[|pieces| - 1].hi - Base(chain, startBlock);
      && 0 <= k <= |Canonical(chain, startBlock)|
      && Cut(chain, Base(chain, startBlock), pieces[|pieces| - 1].hi) == Canonical(chain, startBlock)[..k]
      && Replay(seed, chain, pieces) == Fold(SeedOf(seed, chain, pieces), Canonical(chain, startBlock)[..k])
  {
    var last := pieces[|pieces| - 1];
    assert Cut(chain, last.lo, last.hi) == Canonical(chain, startBlock)[..last.hi - last.lo];
  }

  /** What the last piece started from, when no log since the last reset is missing. */
  lemma SeedIsReset(seed: Tables, chain: seq<Log>, startBlock: nat, pieces: seq<Piece>)
    requires pieces != [] && PiecesOk(pieces, chain, startBlock)
    requires pieces[|pieces| - 1].lo == Base(chain, startBlock) && (pieces[0].wiped || seed == NO_TABLES)
    ensures SeedOf(seed, chain, pieces) == Reset(Replay(seed, chain, pieces[..|pieces| - 1]))
  {
    if !pieces[|pieces| - 1].wiped {
      assert |pieces| == 1;
      assert Replay(seed, chain, []) == seed;
    }
  }

  /** Whatever resets and losses came before, if nothing has been passed over since
      the last reset, scores, receipts and identities are a fresh fold. */
  lemma WholeIsRebuilt(seed: Tables, chain: seq<Log>, startBlock: nat, pieces: seq<Piece>)
    requires pieces != [] && PiecesOk(pieces, chain, startBlock)
    requires pieces[|pieces| - 1].lo == Base(chain, startBlock) && (pieces[0].wiped || seed == NO_TABLES)
    requires LawfulLogs(Canonical(chain, startBlock)) && RulingsAgree(seed.completions, Canonical(chain, startBlock))
    ensures SameRebuilt(Replay(seed, chain, pieces),
                        Fold(NO_TABLES, Cut(chain, Base(chain, startBlock), pieces[|pieces| - 1].hi)))
  {
    var n := |pieces| - 1;
    SeedIsReset(seed, chain, startBlock, pieces);
    ReplayIsFold(seed, chain, startBlock, pieces);
    ReplayRowsFrom(seed, chain, startBlock, pieces[..n]);
    RebuiltOver(Replay(seed, chain, pieces[..n]), seed.completions, Canonical(chain, startBlock),
                pieces[n].hi - Base(chain, startBlock));
  }

  lemma RebuiltOver(d: Tables, rows: map<nat, Address>, logs: seq<Log>, k: nat)
    requires LawfulLogs(logs) && RulingsAgree(rows, logs) && RowsFrom(d.completions, rows, ViewOf(logs).owner)
    requires k <= |logs|
    ensures SameRebuilt(Fold(Reset(d), logs[..k]), Fold(NO_TABLES, logs[..k]))
  {
    AgreementLasts(d.completions, rows, logs);
    RebuildRestoresPrefix(d, logs, k);
  }

  /** Any schedule over a chain that never forked, torn passes and the rebuilds
      they cause included, keeps those tables one fold while it loses no logs. */
  lemma ScheduleKeepsRebuilt(passes: seq<Pass>, chain: seq<Log>, startBlock: nat)
    requires ChainOk(chain) && PassesOk(passes, chain, startBlock) && LawfulLogs(Canonical(chain, startBlock))
    ensures
      var z := Run(Start(chain, startBlock), passes, chain);
      Whole(z, chain, startBlock) ==>
        SameRebuilt(Replay(NO_TABLES, chain, z.pieces),
                    Fold(NO_TABLES, Cut(chain, Base(chain, startBlock), LastPiece(z).hi)))
  {
    var x := Start(chain, startBlock);
    StartOk(chain, startBlock);
    RunKeepsPieces(x, passes, chain, startBlock);
    var z := Run(x, passes, chain);
    NoRowsAgree(Canonical(chain, startBlock));
    if Whole(z, chain, startBlock) {
      WholeIsRebuilt(NO_TABLES, chain, startBlock, z.pieces);
    }
  }

  lemma NoRowsAgree(logs: seq<Log>)
    ensures RulingsAgree(map[], logs)
  {
  }

  // ---- the pair counts ----

  /** What a piece confirms for `p` when replayed on its own. */
  function PairsOf(chain: seq<Log>, p: Pair): Piece -> nat
  {
    (q: Piece) => PairCount(Fold(NO_TABLES, Cut(chain, q.lo, q.hi)).pairs, p)
  }

  function Total(pieces: seq<Piece>, f: Piece -> nat): nat
  {
    if pieces == [] then 0 else Total(pieces[..|pieces| - 1], f) + f(pieces[|pieces| - 1])
  }

  ghost predicate AllWhole(pieces: seq<Piece>, chain: seq<Log>, startBlock: nat)
  {
    forall i :: 0 <= i < |pieces| ==> pieces[i].lo == Base(chain, startBlock)
  }

  ghost predicate PairsOk(t: Tables)
  {
    DistinctSound(t) && forall p :: p in t.pairs ==> t.pairs[p] >= 1
  }

  /** Every replay counts all its confirmations again: the pair counts are the sum
      over all replays, on top of what was there in the beginning. */
  lemma {:induction false} PairsAddUp(seed: Tables, chain: seq<Log>, startBlock: nat, pieces: seq<Piece>)
    requires PiecesOk(pieces, chain, startBlock) && AllWhole(pieces, chain, startBlock) && PairsOk(seed)
    requires pieces != [] ==> pieces[0].wiped || seed == NO_TABLES
    requires LawfulLogs(Canonical(chain, startBlock)) && RulingsAgree(seed.completions, Canonical(chain, startBlock))
    ensures PairsOk(Replay(seed, chain, pieces))
    ensures forall p :: PairCount(Replay(seed, chain, pieces).pairs, p)
                     == PairCount(seed.pairs, p) + Total(pieces, PairsOf(chain, p))
  {
    if pieces != [] {
      var n := |pieces| - 1;
      PairsAddUp(seed, chain, startBlock, pieces[..n]);
      SeedIsReset(seed, chain, startBlock, pieces);
      ReplayIsFold(seed, chain, startBlock, pieces);
      ReplayRowsFrom(seed, chain, startBlock, pieces[..n]);
      var d := Replay(seed, chain, pieces[..n]);
      AgreementLasts(d.completions, seed.completions, Canonical(chain, startBlock));
      OneReplayMore(d, Canonical(chain, startBlock), pieces[n].hi - Base(chain, startBlock));
      forall p
        ensures PairCount(Replay(seed, chain, pieces).pairs, p)
             == PairCount(seed.pairs, p) + Total(pieces, PairsOf(chain, p))
      {
        TotalOneMore(chain, startBlock, pieces, p);
      }
    }
  }

  lemma TotalOneMore(chain: seq<Log>, startBlock: nat, pieces: seq<Piece>, p: Pair)
    requires pieces != [] && PiecesOk(pieces, chain, startBlock) && pieces[|pieces| - 1].lo == Base(chain, startBlock)
    ensures var n := |pieces| - 1;
      var k := pieces[n].hi - Base(chain, startBlock);
      && 0 <= k <= |Canonical(chain, startBlock)|
      && Total(pieces, PairsOf(chain, p)) == Total(pieces[..n], PairsOf(chain, p))
           + PairCount(Fold(NO_TABLES, Canonical(chain, startBlock)[..k]).pairs, p)
  {
    ReplayIsFold(NO_TABLES, chain, startBlock, pieces);
  }

  lemma OneReplayMore(d: Tables, logs: seq<Log>, k: nat)
    requires k <= |logs| && LawfulLogs(logs) && RulingsAgree(d.completions, logs) && PairsOk(d)
    ensures PairsOk(Fold(Reset(d), logs[..k]))
    ensures forall p :: PairCount(Fold(Reset(d), logs[..k]).pairs, p)
                     == PairCount(d.pairs, p) + PairCount(Fold(NO_TABLES, logs[..k]).pairs, p)
  {
    LawfulTake(logs, k);
    AgreeTake(logs, d.completions, k);
    PairsStackUp(d, logs[..k]);
  }

  /** So they are one fold of the chain if and only if no replay that was wiped had
      confirmed anything. */
  lemma PairsAreOneFoldIff(chain: seq<Log>, startBlock: nat, pieces: seq<Piece>)
    requires pieces != [] && PiecesOk(pieces, chain, startBlock) && AllWhole(pieces, chain, startBlock)
    requires LawfulLogs(Canonical(chain, startBlock))
    ensures
      var n := |pieces| - 1;
      (forall p :: PairCount(Replay(NO_TABLES, chain, pieces).pairs, p) == PairsOf(chain, p)(pieces[n]))
      <==> forall p, i :: 0 <= i < n ==> PairsOf(chain, p)(pieces[i]) == 0
  {
    NoRowsAgree(Canonical(chain, startBlock));
    NothingIsSound();
    PairsAddUp(NO_TABLES, chain, startBlock, pieces);
    forall p
      ensures PairCount(Replay(NO_TABLES, chain, pieces).pairs, p) == PairsOf(chain, p)(pieces[|pieces| - 1])
         <==> forall i :: 0 <= i < |pieces| - 1 ==> PairsOf(chain, p)(pieces[i]) == 0
    {
      TotalIsLast(pieces, PairsOf(chain, p));
    }
  }

  lemma TotalIsLast(pieces: seq<Piece>, f: Piece -> nat)
    requires pieces != []
    ensures Total(pieces, f) == f(pieces[|pieces| - 1]) <==> forall i :: 0 <= i < |pieces| - 1 ==> f(pieces[i]) == 0
  {
    TotalZero(pieces[..|pieces| - 1], f);
  }

  lemma NothingIsSound()
    ensures PairsOk(NO_TABLES)
  {
    assert forall a :: Counterparties(map[], a) == {};
  }

  lemma {:induction false} TotalZero(pieces: seq<Piece>, f: Piece -> nat)
    ensures Total(pieces, f) == 0 <==> forall i :: 0 <= i < |pieces| ==> f(pieces[i]) == 0
  {
    if pieces != [] {
      TotalZero(pieces[..|pieces| - 1], f);
    }
  }

  // ---- pairs and credit over schedules ----

  lemma NoLossKeepsWhole(x: Trail, p: Pass, chain: seq<Log>, startBlock: nat)
    requires x.pieces != [] && p.opts.startBlock == startBlock
    requires AllWhole(x.pieces, chain, startBlock) && !Loses(x, p, chain)
    ensures AllWhole(Poll(x, p, chain).pieces, chain, startBlock)
  {
  }

  /** While no pass passes logs over, every piece of a schedule begins at the start block. */
  lemma {:induction false} NoLossesAllWhole(passes: seq<Pass>, k: nat, chain: seq<Log>, startBlock: nat)
    requires PassesOk(passes, chain, startBlock) && k <= |passes|
    requires forall j: nat :: j < k ==> !LosesAt(Start(chain, startBlock), passes, j, chain)
    ensures AllWhole(Run(Start(chain, startBlock), passes[..k], chain).pieces, chain, startBlock)
  {
    if k > 0 {
      NoLossesAllWhole(passes, k - 1, chain, startBlock);
      assert passes[..k][..k - 1] == passes[..k - 1];
      assert PassOk(passes[k - 1], chain, startBlock) && !LosesAt(Start(chain, startBlock), passes, k - 1, chain);
      NoLossKeepsWhole(Run(Start(chain, startBlock), passes[..k - 1], chain), passes[k - 1], chain, startBlock);
    }
  }

  ghost predicate NoLosses(passes: seq<Pass>, chain: seq<Log>, startBlock: nat)
  {
    forall k: nat :: k < |passes| ==> !LosesAt(Start(chain, startBlock), passes, k, chain)
  }

  /** What a schedule has made of the pieces. */
  lemma SchedulePieces(passes: seq<Pass>, chain: seq<Log>, startBlock: nat)
    requires ChainOk(chain) && PassesOk(passes, chain, startBlock) && NoLosses(passes, chain, startBlock)
    ensures
      var pieces := Run(Start(chain, startBlock), passes, chain).pieces;
      pieces != [] && PiecesOk(pieces, chain, startBlock) && AllWhole(pieces, chain, startBlock)
  {
    StartOk(chain, startBlock);
    RunKeepsPieces(Start(chain, startBlock), passes, chain, startBlock);
    NoLossesAllWhole(passes, |passes|, chain, startBlock);
    assert passes[..|passes|] == passes;
  }

  /** The pieces that a later wipe has taken back, for this pair. */
  ghost predicate WipedUnconfirmed(pieces: seq<Piece>, chain: seq<Log>, p: Pair)
  {
    forall i :: 0 <= i < |pieces| - 1 ==> PairsOf(chain, p)(pieces[i]) == 0
  }

  /** After any schedule that passes no logs over, with any deaths and any wipes: the pair
      counts are one fold of the applied logs if and only if no replay that a wipe cut off
      had a live confirmation to its name. */
  lemma SchedulePairsIff(passes: seq<Pass>, chain: seq<Log>, startBlock: nat)
    requires ChainOk(chain) && PassesOk(passes, chain, startBlock) && NoLosses(passes, chain, startBlock)
    requires LawfulLogs(Canonical(chain, startBlock))
    ensures
      var z := Run(Start(chain, startBlock), passes, chain);
      (forall p :: PairCount(Replay(NO_TABLES, chain, z.pieces).pairs, p)
                   == PairCount(Fold(NO_TABLES, Cut(chain, Base(chain, startBlock), LastPiece(z).hi)).pairs, p))
      <==> forall p :: WipedUnconfirmed(z.pieces, chain, p)
  {
    SchedulePieces(passes, chain, startBlock);
    var z := Run(Start(chain, startBlock), passes, chain);
    PairsAreOneFoldIff(chain, startBlock, z.pieces);
    forall p
      ensures PairsOf(chain, p)(LastPiece(z))
           == PairCount(Fold(NO_TABLES, Cut(chain, Base(chain, startBlock), LastPiece(z).hi)).pairs, p)
    {
      assert LastPiece(z).lo == Base(chain, startBlock);
    }
    if forall p :: WipedUnconfirmed(z.pieces, chain, p) {
      forall p, i | 0 <= i < |z.pieces| - 1
        ensures PairsOf(chain, p)(z.pieces[i]) == 0
      {
        assert WipedUnconfirmed(z.pieces, chain, p);
      }
    }
  }

  /** A counterparty that a replay cut off by a wipe had, and the last one does not. */
  predicate Ghosted(pieces: seq<Piece>, chain: seq<Log>, p: Pair, i: nat)
    requires i < |pieces|
  {
    PairsOf(chain, p)(pieces[i]) > 0 && PairsOf(chain, p)(pieces[|pieces| - 1]) == 0
  }

  ghost predicate NoGhosts(pieces: seq<Piece>, chain: seq<Log>, a: Address)
  {
    forall p: Pair, i: nat :: i < |pieces| && p.agent == a ==> !Ghosted(pieces, chain, p, i)
  }

  /** After any such schedule, an agent's credit signal is that of one fold of the applied
      logs, its counterparties with a live receipt, if and only if every counterparty that
      some replay had confirmed is confirmed by the last one too. */
  lemma ScheduleCreditIff(passes: seq<Pass>, chain: seq<Log>, startBlock: nat, a: Address)
    requires ChainOk(chain) && PassesOk(passes, chain, startBlock) && NoLosses(passes, chain, startBlock)
    requires LawfulLogs(Canonical(chain, startBlock))
    ensures
      var z := Run(Start(chain, startBlock), passes, chain);
      Distinct(Replay(NO_TABLES, chain, z.pieces).diversity, a)
      == Distinct(Fold(NO_TABLES, Cut(chain, Base(chain, startBlock), LastPiece(z).hi)).diversity, a)
      <==> NoGhosts(z.pieces, chain, a)
  {
    SchedulePieces(passes, chain, startBlock);
    CreditAddsUp(Run(Start(chain, startBlock), passes, chain).pieces, chain, startBlock, a);
  }

  lemma CreditAddsUp(pieces: seq<Piece>, chain: seq<Log>, startBlock: nat, a: Address)
    requires pieces != [] && PiecesOk(pieces, chain, startBlock) && AllWhole(pieces, chain, startBlock)
    requires LawfulLogs(Canonical(chain, startBlock))
    ensures
      var last := pieces[|pieces| - 1];
      Distinct(Replay(NO_TABLES, chain, pieces).diversity, a)
      == Distinct(Fold(NO_TABLES, Cut(chain, Base(chain, startBlock), last.hi)).diversity, a)
      <==> NoGhosts(pieces, chain, a)
  {
    NoRowsAgree(Canonical(chain, startBlock));
    NothingIsSound();
    PairsAddUp(NO_TABLES, chain, startBlock, pieces);
    LastFoldIsSound(chain, startBlock, pieces);
    var last := pieces[|pieces| - 1];
    assert last.lo == Base(chain, startBlock);
    CreditOfCounts(Replay(NO_TABLES, chain, pieces), Fold(NO_TABLES, Cut(chain, last.lo, last.hi)), pieces, chain, a);
  }

  /** Some replay had confirmed the pair. */
  predicate Ever(pieces: seq<Piece>, chain: seq<Log>, p: Pair)
  {
    exists i: nat :: i < |pieces| && PairsOf(chain, p)(pieces[i]) > 0
  }

  /** The last one has. */
  predicate Still(pieces: seq<Piece>, chain: seq<Log>, p: Pair)
    requires pieces != []
  {
    PairsOf(chain, p)(pieces[|pieces| - 1]) > 0
  }

  lemma EverCounted(t: Tables, pieces: seq<Piece>, chain: seq<Log>, p: Pair, a: Address)
    requires PairsOk(t) && PairCount(t.pairs, p) == Total(pieces, PairsOf(chain, p))
    ensures p in Counterparties(t.pairs, a) <==> p.agent == a && Ever(pieces, chain, p)
  {
    TotalZero(pieces, PairsOf(chain, p));
  }

  lemma StillCounted(f: Tables, pieces: seq<Piece>, chain: seq<Log>, p: Pair, a: Address)
    requires pieces != [] && PairsOk(f) && PairCount(f.pairs, p) == PairsOf(chain, p)(pieces[|pieces| - 1])
    ensures p in Counterparties(f.pairs, a) <==> p.agent == a && Still(pieces, chain, p)
  {
  }

  /** Distinct counts from pair counts. */
  lemma CreditOfCounts(t: Tables, f: Tables, pieces: seq<Piece>, chain: seq<Log>, a: Address)
    requires pieces != [] && PairsOk(t) && PairsOk(f)
    requires forall p :: PairCount(t.pairs, p) == Total(pieces, PairsOf(chain, p))
    requires forall p :: PairCount(f.pairs, p) == PairsOf(chain, p)(pieces[|pieces| - 1])
    ensures Distinct(t.diversity, a) == Distinct(f.diversity, a) <==> NoGhosts(pieces, chain, a)
  {
    var mine, lived := Counterparties(t.pairs, a), Counterparties(f.pairs, a);
    forall p: Pair
      ensures p in mine <==> p.agent == a && Ever(pieces, chain, p)
      ensures p in lived <==> p.agent == a && Still(pieces, chain, p)
    {
      EverCounted(t, pieces, chain, p, a);
      StillCounted(f, pieces, chain, p, a);
    }
    MineAreLived(pieces, chain, a, mine, lived);
    CreditIsSize(t, f, a);
  }

  lemma CreditIsSize(t: Tables, f: Tables, a: Address)
    requires DistinctSound(t) && DistinctSound(f) && Counterparties(f.pairs, a) <= Counterparties(t.pairs, a)
    ensures Distinct(t.diversity, a) == Distinct(f.diversity, a)
       <==> Counterparties(t.pairs, a) <= Counterparties(f.pairs, a)
  {
    assert DistinctExact(t.diversity, t.pairs, a) && DistinctExact(f.diversity, f.pairs, a);
    var mine, lived := Counterparties(t.pairs, a), Counterparties(f.pairs, a);
    assert mine == mine + lived;
    SameSizeIffSubset(mine, lived);
  }

  lemma MineAreLived(pieces: seq<Piece>, chain: seq<Log>, a: Address, mine: set<Pair>, lived: set<Pair>)
    requires pieces != []
    requires forall p: Pair :: p in mine <==> p.agent == a && Ever(pieces, chain, p)
    requires forall p: Pair :: p in lived <==> p.agent == a && Still(pieces, chain, p)
    ensures lived <= mine
    ensures mine <= lived <==> NoGhosts(pieces, chain, a)
  {
    forall p: Pair
      ensures Still(pieces, chain, p) ==> Ever(pieces, chain, p)
      ensures Ever(pieces, chain, p) && !Still(pieces, chain, p)
         <==> exists i: nat :: i < |pieces| && Ghosted(pieces, chain, p, i)
    {
      assert PairsOf(chain, p)(pieces[|pieces| - 1]) > 0 ==> Ever(pieces, chain, p);
      if Ever(pieces, chain, p) && !Still(pieces, chain, p) {
        var i: nat :| i < |pieces| && PairsOf(chain, p)(pieces[i]) > 0;
        assert Ghosted(pieces, chain, p, i);
      }
    }
  }

  /** A single replay from nothing keeps its distinct counts exact. */
  lemma LastFoldIsSound(chain: seq<Log>, startBlock: nat, pieces: seq<Piece>)
    requires pieces != [] && PiecesOk(pieces, chain, startBlock) && AllWhole(pieces, chain, startBlock)
    requires LawfulLogs(Canonical(chain, startBlock))
    ensures PairsOk(Fold(NO_TABLES, Cut(chain, pieces[|pieces| - 1].lo, pieces[|pieces| - 1].hi)))
  {
    ReplayIsFold(NO_TABLES, chain, startBlock, pieces);
    NoRowsAgree(Canonical(chain, startBlock));
    NothingIsSound();
    OneReplayMore(NO_TABLES, Canonical(chain, startBlock), pieces[|pieces| - 1].hi - Base(chain, startBlock));
    assert Reset(NO_TABLES) == NO_TABLES;
  }

  // ---- a fork ----

  /** The trail of an index of some other chain, of which only cursor and hash matter. */
  function Parked(cursor: Option<int>, hash: nat): Trail
  {
    Trail(cursor, hash, 0, [], [])
  }

  /** Passes after a fork, the first of which sees it. Wherever any of them dies, if
      no logs have been passed over, the cleared tables are a fresh fold of the
      canonical logs applied since the last reset; and that is all of them up to the
      cursor when no pass died or the cursor has caught up. */
  method RebuildThenPoll(indexer: LogIndexer, passes: seq<Pass>, ghost chain: seq<Log>, startBlock: nat)
    requires ChainOk(chain) && passes != [] && PassesOk(passes, chain, startBlock)
    requires indexer.AlertsOk() && indexer.ReorgSeen(passes[0].provider)
    requires indexer.db.lastBlock.value >= startBlock - 1
    requires LawfulLogs(Canonical(chain, startBlock))
    requires RulingsAgree(indexer.db.completions, Canonical(chain, startBlock))
    modifies indexer.db, indexer.alerts
    ensures
      var z := Run(Parked(old(indexer.db.lastBlock), old(indexer.db.lastHash)), passes, chain);
      && indexer.Follows(z, chain, old(indexer.db.Value()), old(indexer.alerts.Value()))
      && (Whole(z, chain, startBlock) ==>
            SameRebuilt(indexer.db.Value(), Fold(NO_TABLES, Cut(chain, Base(chain, startBlock), LastPiece(z).hi))))
      && (NoDeaths(passes) || z.scanned == MaxSafe(passes, CursorOr(old(indexer.db.lastBlock), startBlock)) ==>
            LastPiece(z).hi == Upto(chain, z.scanned))
  {
    ghost var x := Parked(indexer.db.lastBlock, indexer.db.lastHash);
    ghost var seed, aseed := indexer.db.Value(), indexer.alerts.Value();
    indexer.RunSchedule(passes, chain, startBlock, x, seed, aseed);
    RunSettles(x, passes, chain, startBlock);
    ForkRebuilt(x, passes, chain, startBlock, seed);
  }

  lemma ForkRebuilt(x: Trail, passes: seq<Pass>, chain: seq<Log>, startBlock: nat, seed: Tables)
    requires x.pieces == [] && TrailOk(x, chain, startBlock) && passes != []
    requires PassesOk(passes, chain, startBlock) && CanRun(x, passes)
    requires LawfulLogs(Canonical(chain, startBlock)) && RulingsAgree(seed.completions, Canonical(chain, startBlock))
    ensures
      var z := Run(x, passes, chain);
      Whole(z, chain, startBlock) ==>
        SameRebuilt(Replay(seed, chain, z.pieces),
                    Fold(NO_TABLES, Cut(chain, Base(chain, startBlock), LastPiece(z).hi)))
  {
    RunKeepsPieces(x, passes, chain, startBlock);
    FirstIsWiped(x, passes, chain, startBlock);
    var z := Run(x, passes, chain);
    if Whole(z, chain, startBlock) {
      WholeIsRebuilt(seed, chain, startBlock, z.pieces);
    }
  }

  lemma {:induction false} FirstIsWiped(x: Trail, passes: seq<Pass>, chain: seq<Log>, startBlock: nat)
    requires x.pieces == [] && PassesOk(passes, chain, startBlock) && CanRun(x, passes)
    ensures passes != [] ==> Run(x, passes, chain).pieces[0].wiped
  {
    if passes != [] {
      FirstIsWiped(x, passes[..|passes| - 1], chain, startBlock);
    }
  }
}
