/** Concrete inputs for the indexer, each reached from nothing
    through its own steps, on which a promise fails. The exact conditions are
    proved beside the promises. */
module IndexerCounterexamples {

  import opened Parties
  import opened Alerts
  import opened IndexDb
  import opened IndexMirror
  import opened ChainLogs
  import opened IndexTrail
  import opened IndexHistory
  import opened AlertHistory
  import opened Reorg
  import opened Rebuilds
  import opened LogHistory
  import opened Discovery

  const AGENT := Address(1)
  const FRIEND := Address(2)
  const PAIR := Pair(AGENT, FRIEND)
  const ATTEST := Log(5, LogKey(1, 0), 50, SelfAttested(7, AGENT))
  const CONFIRM := Log(5, LogKey(1, 1), 50, ReceiptAttested(7, AGENT, FRIEND))

  // ---- deaths at the wrong moment, on a chain that never forks ----

  /** One attestation and its receipt, both in block 5. */
  const CHAIN: seq<Log> := [ATTEST, CONFIRM]

  const OPTS := PollOptions(1, 100, 0, 20, 0, 0, 0)

  function BlockHash(b: int): nat
  {
    if b >= 0 then 2 * b + 1 else -2 * b
  }

  /** An honest node of a chain at block `head` that cannot give the block `silent`. */
  function NodeOf(chain: seq<Log>, head: int, silent: int): Provider
  {
    Provider(head, (from, to) => Cut(chain, Upto(chain, from - 1), Upto(chain, to)),
             b => if b == silent then 0 else BlockHash(b))
  }

  function Node(head: int, silent: int): Provider
  {
    NodeOf(CHAIN, head, silent)
  }

  lemma ChainIsOk()
    ensures ChainOk(CHAIN) && Base(CHAIN, 1) == 0
    ensures forall b :: Upto(CHAIN, b) == if b >= 5 then 2 else 0
  {
    forall b
      ensures Upto(CHAIN, b) == if b >= 5 then 2 else 0
    {
      assert CHAIN[..1] == [ATTEST] && [ATTEST][..0] == [];
      assert Upto([], b) == 0 && Upto([ATTEST], b) == if b >= 5 then 1 else 0;
    }
  }

  lemma NodeServes(chain: seq<Log>, head: int, silent: int)
    requires ChainOk(chain)
    ensures Serves(NodeOf(chain, head, silent), chain, head) && Honest(NodeOf(chain, head, silent), BlockHash)
  {
    var p := NodeOf(chain, head, silent);
    forall from: int, to: int | from <= to <= head
      ensures multiset(p.getLogs(from, to)) == multiset(Slice(chain, from, to))
    {
      UptoMonotone(chain, from - 1, to);
    }
  }

  /** The index has block 5; a pass to block 10 dies before it stores the hash. */
  const FIRST := Pass(Node(5, -1), OPTS, None)
  const TORN := Pass(Node(10, -1), OPTS, Some(1))

  const SYNCED := Trail(Some(5), BlockHash(5), 5, [Piece(false, 0, 2)], [Raised(0, 2), Pruned(0, 0)])
  const AFTER_TEAR := Trail(Some(10), BlockHash(5), 10, [Piece(false, 0, 2)],
                            [Raised(0, 2), Pruned(0, 0), Raised(2, 2)])

  lemma FirstPass()
    ensures Poll(Start(CHAIN, 1), FIRST, CHAIN) == SYNCED
  {
    ChainIsOk();
    assert Scan(CHAIN, 0, 5, 100, 20, 0, None) == Reach(5, Some(5), 2, false);
  }

  lemma TornPass()
    ensures Poll(SYNCED, TORN, CHAIN) == AFTER_TEAR
  {
    ChainIsOk();
    assert Scan(CHAIN, 5, 10, 100, 20, 2, Some(1)) == Reach(10, None, 2, true);
  }

  lemma FirstTwoPasses()
    ensures Run(Start(CHAIN, 1), [FIRST, TORN], CHAIN) == AFTER_TEAR
  {
    var x := Start(CHAIN, 1);
    FirstPass();
    TornPass();
    assert [FIRST, TORN][..1] == [FIRST] && [FIRST][..0] == [];
    assert Run(x, [], CHAIN) == x;
    assert Run(x, [FIRST], CHAIN) == SYNCED;
  }

  const AGAIN := Pass(Node(10, -1), OPTS, None)

  /** The old hash beside the new cursor looks like a reorg. */
  lemma FalseRebuild()
    ensures var z := Poll(AFTER_TEAR, AGAIN, CHAIN);
      z.cursor == Some(10) && z.hash == BlockHash(10) && z.pieces == [Piece(false, 0, 2), Piece(true, 0, 2)]
  {
    ChainIsOk();
    assert Scan(CHAIN, 0, 10, 100, 20, 0, None) == Reach(10, Some(10), 2, false);
  }

  /** The next pass takes the old hash for a reorg and replays the chain, on top of
      the pair counts the reset leaves: one live receipt is counted twice. */
  lemma FalseRebuildDoublesPairs()
    ensures AllHonest([FIRST, TORN, AGAIN])
    ensures
      var z := Run(Start(CHAIN, 1), [FIRST, TORN, AGAIN], CHAIN);
      && z.cursor == Some(10) && z.hash == BlockHash(10)
      && PairCount(Replay(NO_TABLES, CHAIN, z.pieces).pairs, PAIR) == 2
      && PairCount(Fold(NO_TABLES, CHAIN).pairs, PAIR) == 1
  {
    TheseAreHonest();
    FirstTwoPasses();
    FalseRebuild();
    assert [FIRST, TORN, AGAIN][..2] == [FIRST, TORN];
    CountedTwice([Piece(false, 0, 2), Piece(true, 0, 2)]);
  }

  /** The passes are over that one chain, by honest nodes. */
  ghost predicate AllHonest(passes: seq<Pass>)
  {
    PassesOk(passes, CHAIN, 1) && forall i :: 0 <= i < |passes| ==> Honest(passes[i].provider, BlockHash)
  }

  lemma TheseAreHonest()
    ensures AllHonest([FIRST, TORN, AGAIN]) && AllHonest([FIRST, TORN, DIES_AT_ONCE, BLIND])
  {
    ChainIsOk();
    NodeServes(CHAIN, 5, -1);
    NodeServes(CHAIN, 10, -1);
    NodeServes(CHAIN, 11, 10);
  }

  lemma ChainIsLawful()
    ensures LawfulLogs(CHAIN) && ViewOf(CHAIN) == View(map[7 := AGENT], map[7 := PAIR])
    ensures PairCount(Fold(NO_TABLES, CHAIN).pairs, PAIR) == 1
  {
    assert CHAIN[..0] == [] && CHAIN[..1] == [ATTEST] && [ATTEST][..0] == [];
    assert ViewOf([ATTEST]) == View(map[7 := AGENT], map[]);
    assert Lawful(ViewOf(CHAIN[..1]), CHAIN[1].event);
    IndexMirrorsChain(CHAIN);
    assert PairExact(Fold(NO_TABLES, CHAIN).pairs, ViewOf(CHAIN), map[], PAIR);
    assert LiveFor(ViewOf(CHAIN), PAIR) == {7};
  }

  lemma CountedTwice(pieces: seq<Piece>)
    requires pieces == [Piece(false, 0, 2), Piece(true, 0, 2)]
    ensures PairCount(Replay(NO_TABLES, CHAIN, pieces).pairs, PAIR) == 2
    ensures PairCount(Fold(NO_TABLES, CHAIN).pairs, PAIR) == 1
  {
    ChainIsOk();
    ChainIsLawful();
    assert Canonical(CHAIN, 1) == CHAIN && Cut(CHAIN, 0, 2) == CHAIN;
    NoRowsAgree(CHAIN);
    NothingIsSound();
    PairsAddUp(NO_TABLES, CHAIN, 1, pieces);
    var f := PairsOf(CHAIN, PAIR);
    assert f(Piece(false, 0, 2)) == 1 && f(Piece(true, 0, 2)) == 1;
    assert pieces[..1] == [Piece(false, 0, 2)] && pieces[..1][..0] == [];
    assert Total(pieces[..1], f) == 1;
  }

  const DIES_AT_ONCE := Pass(Node(10, -1), OPTS, Some(0))
  const BLIND := Pass(Node(11, 10), OPTS, None)

  lemma RebuildDies()
    ensures var y := Poll(AFTER_TEAR, DIES_AT_ONCE, CHAIN);
      && y.cursor == Some(10) && y.hash == BlockHash(5) && y.scanned == 0
      && y.pieces == [Piece(false, 0, 2), Piece(true, 0, 0)]
  {
    ChainIsOk();
    assert Scan(CHAIN, 0, 10, 100, 20, 0, Some(0)) == Reach(0, None, 0, true);
  }

  lemma BlindPassGoesOn(y: Trail)
    requires y.cursor == Some(10) && y.hash == BlockHash(5) && y.scanned == 0
    requires y.pieces == [Piece(false, 0, 2), Piece(true, 0, 0)]
    ensures var z := Poll(y, BLIND, CHAIN);
      && z.cursor == Some(11) && z.hash == BlockHash(11)
      && z.pieces == [Piece(false, 0, 2), Piece(true, 0, 0), Piece(false, 2, 2)]
  {
    ChainIsOk();
    assert Scan(CHAIN, 10, 11, 100, 20, 2, None) == Reach(11, Some(11), 2, false);
  }

  /** The rebuild dies at once, and the next pass cannot get block 10: it goes on
      from the old cursor over empty tables, and no later pass will notice. */
  lemma RebuildCanBeAbandoned()
    ensures AllHonest([FIRST, TORN, DIES_AT_ONCE, BLIND])
    ensures
      var z := Run(Start(CHAIN, 1), [FIRST, TORN, DIES_AT_ONCE, BLIND], CHAIN);
      var t := Replay(NO_TABLES, CHAIN, z.pieces);
      && z.cursor == Some(11) && HashOk(z, BlockHash)
      && t.scores == map[] && t.receipts == map[]
      && AGENT in Fold(NO_TABLES, CHAIN).scores
  {
    TheseAreHonest();
    FirstTwoPasses();
    RebuildDies();
    BlindPassGoesOn(Poll(AFTER_TEAR, DIES_AT_ONCE, CHAIN));
    var passes := [FIRST, TORN, DIES_AT_ONCE, BLIND];
    assert passes[..3] == [FIRST, TORN, DIES_AT_ONCE] && [FIRST, TORN, DIES_AT_ONCE][..2] == [FIRST, TORN];
    assert Run(Start(CHAIN, 1), [FIRST, TORN, DIES_AT_ONCE], CHAIN) == Poll(AFTER_TEAR, DIES_AT_ONCE, CHAIN);
    EmptyAfterAll([Piece(false, 0, 2), Piece(true, 0, 0), Piece(false, 2, 2)]);
    ChainScoresAgent();
  }

  lemma EmptyAfterAll(pieces: seq<Piece>)
    requires pieces == [Piece(false, 0, 2), Piece(true, 0, 0), Piece(false, 2, 2)]
    ensures var t := Replay(NO_TABLES, CHAIN, pieces);
      t.scores == map[] && t.receipts == map[]
  {
    var d := Replay(NO_TABLES, CHAIN, pieces[..1]);
    assert pieces[..2][..1] == pieces[..1];
    assert Cut(CHAIN, 0, 0) == [] && Cut(CHAIN, 2, 2) == [];
    assert Replay(NO_TABLES, CHAIN, pieces[..2]) == Fold(Reset(d), []);
    assert Replay(NO_TABLES, CHAIN, pieces) == Fold(Reset(d), []);
  }

  lemma ChainScoresAgent()
    ensures AGENT in Fold(NO_TABLES, CHAIN).scores
  {
    ChainIsLawful();
    IndexMirrorsChain(CHAIN);
    assert ScoreExact(Fold(NO_TABLES, CHAIN).scores, ViewOf(CHAIN), AGENT);
    assert 7 in LiveOf(ViewOf(CHAIN), AGENT);
  }

  // ---- forks ----

  /** The receipt is on the abandoned fork only, yet its issuer keeps counting. */
  lemma CreditCanStayInflated()
    ensures
      var d := Fold(NO_TABLES, CHAIN);
      && LawfulLogs(CHAIN) && LawfulLogs([ATTEST]) && RulingsAgree(d.completions, [ATTEST])
      && Distinct(Fold(Reset(d), [ATTEST]).diversity, AGENT) == 1
      && Distinct(Fold(NO_TABLES, [ATTEST]).diversity, AGENT) == 0
  {
    ChainIsLawful();
    assert [ATTEST][..0] == [];
    assert LawfulLogs([ATTEST]);
    IndexMirrorsChain(CHAIN);
    var d := Fold(NO_TABLES, CHAIN);
    assert DistinctExact(d.diversity, d.pairs, AGENT);
    forall p
      ensures p in Counterparties(d.pairs, AGENT) <==> p == PAIR
    {
      assert PairExact(d.pairs, ViewOf(CHAIN), map[], p);
      assert LiveFor(ViewOf(CHAIN), p) == if p == PAIR then {7} else {};
    }
    assert Counterparties(d.pairs, AGENT) == {PAIR};
    AttestationsAddNoCredit(Reset(d));
    AttestationsAddNoCredit(NO_TABLES);
  }

  const REGISTERED := Log(5, LogKey(1, 0), 50, CapabilityRegistered(3, AGENT, 8))
  const CERTIFIED := Log(6, LogKey(2, 0), 60, CapabilityCertified(3))
  const SLASHED := Log(9, LogKey(3, 0), 90, CapabilitySlashed(3))

  /** The slash is on the abandoned fork only, yet the capability stays off the listing that the
      canonical chain has it on. */
  lemma SlashCanOutliveFork()
    ensures
      var t := Fold(Reset(Fold(NO_TABLES, [REGISTERED, CERTIFIED, SLASHED])), [REGISTERED, CERTIFIED]);
      OfferedBy([REGISTERED, CERTIFIED], 3, 8) && !Offered(t.capabilities, 3, 8)
  {
    var before, canonical := [REGISTERED, CERTIFIED, SLASHED], [REGISTERED, CERTIFIED];
    assert Latest(canonical, 0, 3) && canonical[1].event == CapabilityCertified(3);
    CapabilitiesTold(before, 3);
    assert Standing(before, 0, 3) && before[2].event == CapabilitySlashed(3);
    ReplayedBeside(Fold(NO_TABLES, before), canonical, 3);
  }

  lemma OneLog(t: Tables, log: Log)
    ensures Fold(t, [log]) == ApplyLog(t, log)
  {
    assert [log][..0] == [];
  }

  lemma AttestationsAddNoCredit(t: Tables)
    ensures Fold(t, [ATTEST]).diversity == t.diversity
  {
    OneLog(t, ATTEST);
    assert ApplyLog(t, ATTEST) == Attested(t, 7, AGENT, 50);
  }

  predicate Charged(t: Tables, a: Address)
  {
    DisputesOf(t.scores, a) > 0
  }

  const OTHER_ATTEST := Log(6, LogKey(2, 0), 60, SelfAttested(7, FRIEND))
  const RULING := Log(7, LogKey(3, 0), 70, ChallengeResolved(7, true))

  /** Completion 7 is the agent's on the abandoned fork and another account's on the
      canonical chain: the upheld ruling is charged to the wrong one. */
  lemma DisputeCanBeMisattributed()
    ensures
      var d := Fold(NO_TABLES, [ATTEST]);
      var canonical := [OTHER_ATTEST, RULING];
      && LawfulLogs([ATTEST]) && LawfulLogs(canonical)
      && Charged(Fold(Reset(d), canonical), AGENT) && !Charged(Fold(Reset(d), canonical), FRIEND)
      && !Charged(Fold(NO_TABLES, canonical), AGENT) && Charged(Fold(NO_TABLES, canonical), FRIEND)
  {
    assert [ATTEST][..0] == [];
    assert LawfulLogs([ATTEST]);
    var d := Fold(NO_TABLES, [ATTEST]);
    OneLog(NO_TABLES, ATTEST);
    assert d.completions == map[7 := AGENT];
    TwoLogsAreLawful();
    RuledOver(Reset(d));
    RuledOver(NO_TABLES);
  }

  lemma TwoLogsAreLawful()
    ensures LawfulLogs([OTHER_ATTEST, RULING])
  {
    var logs := [OTHER_ATTEST, RULING];
    assert logs[..0] == [] && logs[..1] == [OTHER_ATTEST] && [OTHER_ATTEST][..0] == [];
    assert ViewOf([OTHER_ATTEST]) == Owned(NO_VIEW, 7, FRIEND);
    assert Lawful(ViewOf(logs[..1]), logs[1].event);
  }

  /** The ruling charges whoever the surviving row names. */
  lemma RuledOver(t: Tables)
    requires t.scores == map[]
    ensures
      var charged := if 7 in t.completions then t.completions[7] else FRIEND;
      forall a :: Charged(Fold(t, [OTHER_ATTEST, RULING]), a) <==> a == charged
  {
    var logs := [OTHER_ATTEST, RULING];
    assert logs[..1] == [OTHER_ATTEST];
    OneLog(t, OTHER_ATTEST);
    var u := Attested(t, 7, FRIEND, 60);
    assert Fold(t, logs) == Disputed(u, 7, true);
    forall a
      ensures DisputesOf(Disputed(u, 7, true).scores, a) == if a == u.completions[7] then 1 else 0
    {
      DisputeCharged(u, 7, a);
    }
  }

  const PAUSED := Log(9, LogKey(4, 0), 90, Notice("Paused"))

  /** Nodes on either side of a fork at block 8, with alert retention off. */
  const ABANDONED: seq<Log> := [PAUSED]
  const BEFORE_FORK := Pass(Provider(10, (from, to) => Cut(ABANDONED, Upto(ABANDONED, from - 1), Upto(ABANDONED, to)),
                                     BlockHash), OPTS, None)
  const AFTER_FORK := Pass(Provider(12, (from, to) => [], b => if b <= 8 then BlockHash(b) else BlockHash(b) + 100),
                           OPTS, None)

  lemma AbandonedIsOk()
    ensures ChainOk(ABANDONED) && Base(ABANDONED, 1) == 0
    ensures forall b :: Upto(ABANDONED, b) == if b >= 9 then 1 else 0
  {
    forall b
      ensures Upto(ABANDONED, b) == if b >= 9 then 1 else 0
    {
      assert ABANDONED[..0] == [] && Upto([], b) == 0;
    }
  }

  /** The nodes are right, each about its own chain. */
  lemma BothSidesServe()
    ensures PassOk(BEFORE_FORK, ABANDONED, 1) && PassOk(AFTER_FORK, [], 1)
  {
    AbandonedIsOk();
    var p, q := BEFORE_FORK.provider, AFTER_FORK.provider;
    forall from: int, to: int | from <= to <= 10
      ensures multiset(p.getLogs(from, to)) == multiset(Slice(ABANDONED, from, to))
    {
      UptoMonotone(ABANDONED, from - 1, to);
    }
    forall from: int, to: int | from <= to <= 12
      ensures multiset(q.getLogs(from, to)) == multiset(Slice([], from, to))
    {
      assert Slice([], from, to) == [];
    }
  }

  lemma AbandonedIndexed()
    ensures Poll(Start(ABANDONED, 1), BEFORE_FORK, ABANDONED)
         == Trail(Some(10), BlockHash(10), 10, [Piece(false, 0, 1)], [Raised(0, 1), Pruned(0, 0)])
  {
    AbandonedIsOk();
    assert Scan(ABANDONED, 0, 10, 100, 20, 0, None) == Reach(10, Some(10), 1, false);
  }

  /** The index has come to block 10 when block 9 and what follows is abandoned: the
      rebuild keeps the alert of block 9, an event no longer on the chain. */
  lemma OrphanAlertCanLinger()
    ensures PassOk(BEFORE_FORK, ABANDONED, 1) && PassOk(AFTER_FORK, [], 1)
    ensures
      var x := Poll(Start(ABANDONED, 1), BEFORE_FORK, ABANDONED);
      var alerts := ReplayAlerts(Table([], 0), ABANDONED, x.alertOps);
      && Mismatch(x.cursor, x.hash, AFTER_FORK.provider)
      && OrphanLeft(ReplayAlerts(alerts, [], Poll(Parked(x.cursor, x.hash), AFTER_FORK, []).alertOps), [])
  {
    BothSidesServe();
    AbandonedIndexed();
    var x := Poll(Start(ABANDONED, 1), BEFORE_FORK, ABANDONED);
    assert x.alertOps[..1] == [Raised(0, 1)] && x.alertOps[..1][..0] == [];
    assert Cut(ABANDONED, 0, 1) == ABANDONED;
    assert ReplayAlerts(Table([], 0), ABANDONED, []) == Table([], 0);
    assert ReplayAlerts(Table([], 0), ABANDONED, x.alertOps[..1]) == FoldAlerts(Table([], 0), ABANDONED);
    assert PAUSED in ABANDONED && SparedOrphan(PAUSED, 8, 10, []);
    ForkOrphansIff(ABANDONED, [], 8, Parked(x.cursor, x.hash), AFTER_FORK);
  }
}
