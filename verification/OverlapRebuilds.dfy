/** Rebuilds with passes in flight together: what a wipe clears is replayed right, on
    a chain that never forked and after a fork, while the replay stays in order. */
module OverlapRebuilds {

  import opened Parties
  import opened IndexDb
  import opened IndexMirror
  import opened ChainLogs
  import opened IndexTrail
  import opened Reorg
  import opened Rebuilds
  import opened Overlap
  import opened OverlapHistory
  import opened OverlapFolds

  /** Completion rows come from `rows` or from this chain, and the last wipe has cleared its tables. */
  ghost predicate RowsKnown(s: Machine, rows: map<nat, Address>, owner: map<nat, Address>)
  {
    && RowsFrom(s.tables.completions, rows, owner) && RowsFrom(s.seed.completions, rows, owner)
    && s.seed == Reset(s.seed)
  }

  /** Every log a pass may apply is the canonical chain's. */
  lemma LawfulFromBase(chain: seq<Log>, startBlock: nat, k: nat)
    requires LawfulLogs(Canonical(chain, startBlock)) && Base(chain, startBlock) <= k < |chain|
    ensures AttestsOwner(chain[k].event, ViewOf(Canonical(chain, startBlock)).owner)
  {
    LawfulAttestsOwners(Canonical(chain, startBlock));
    assert chain[k] == Canonical(chain, startBlock)[k - Base(chain, startBlock)];
  }

  lemma MoveRows(s: Machine, step: Step, chain: seq<Log>, startBlock: nat, rows: map<nat, Address>)
    requires Tidy(s, chain, startBlock) && LawfulLogs(Canonical(chain, startBlock))
    requires RowsKnown(s, rows, ViewOf(Canonical(chain, startBlock)).owner)
    ensures RowsKnown(Move(s, step, chain), rows, ViewOf(Canonical(chain, startBlock)).owner)
  {
    if step.Apply? && step.id in s.flights && s.flights[step.id].phase.Checked? {
      var f := s.flights[step.id];
      assert Shaped(f, chain, startBlock);
      if f.phase.next < |chain| {
        LawfulFromBase(chain, startBlock, f.phase.next);
        RowsOnlyGrow(s.tables, chain[f.phase.next]);
        assert Move(s, step, chain) == Taken(s, step.id, f, chain);
      }
    } else {
      TablesMove(s, step, chain);
    }
  }

  lemma {:induction false} RunRows(s: Machine, steps: seq<Step>, chain: seq<Log>, startBlock: nat,
                                   rows: map<nat, Address>)
    requires ChainOk(chain) && StepsOk(steps, chain, startBlock) && Tidy(s, chain, startBlock)
    requires LawfulLogs(Canonical(chain, startBlock))
    requires RowsKnown(s, rows, ViewOf(Canonical(chain, startBlock)).owner)
    ensures RowsKnown(After(s, steps, chain), rows, ViewOf(Canonical(chain, startBlock)).owner)
  {
    if steps != [] {
      var n := |steps| - 1;
      RunRows(s, steps[..n], chain, startBlock, rows);
      RunTidy(s, steps[..n], chain, startBlock);
      MoveRows(After(s, steps[..n], chain), steps[n], chain, startBlock, rows);
    }
  }

  /** Scores, receipts and identities are a fresh fold of the logs applied since the last wipe. */
  ghost predicate Rebuilt(s: Machine, chain: seq<Log>, startBlock: nat)
  {
    var base, hi := Base(chain, startBlock), Base(chain, startBlock) + |s.applied|;
    hi <= |chain| && SameRebuilt(s.tables, Fold(NO_TABLES, Cut(chain, base, hi)))
  }

  lemma FoldIsRebuilt(s: Machine, chain: seq<Log>, startBlock: nat, rows: map<nat, Address>)
    requires OneFold(s, chain, startBlock) && LawfulLogs(Canonical(chain, startBlock))
    requires RulingsAgree(rows, Canonical(chain, startBlock))
    requires RowsKnown(s, rows, ViewOf(Canonical(chain, startBlock)).owner)
    ensures Rebuilt(s, chain, startBlock)
  {
    var base, logs := Base(chain, startBlock), Canonical(chain, startBlock);
    RebuiltOver(s.seed, rows, logs, |s.applied|);
    assert logs[..|s.applied|] == Cut(chain, base, base + |s.applied|);
  }

  /** Passes in flight together over a chain that never forked, wipes included. */
  lemma RebuiltTogether(steps: seq<Step>, chain: seq<Log>, startBlock: nat)
    requires ChainOk(chain) && StepsOk(steps, chain, startBlock) && Orderly(FRESH, steps, chain, startBlock)
    requires LawfulLogs(Canonical(chain, startBlock))
    ensures Rebuilt(After(FRESH, steps, chain), chain, startBlock)
  {
    FreshIsOrdinary(chain, startBlock);
    InOrderIsOneFold(steps, chain, startBlock);
    RunRows(FRESH, steps, chain, startBlock, map[]);
    NoRowsAgree(Canonical(chain, startBlock));
    FoldIsRebuilt(After(FRESH, steps, chain), chain, startBlock, map[]);
  }

  /** A machine whose only pass has just seen a fork and wiped the index of another chain. */
  ghost predicate JustWiped(s: Machine, id: nat, chain: seq<Log>, startBlock: nat)
  {
    && id in s.flights && s.flights == map[id := s.flights[id]]
    && s.flights[id].phase.Fetching? && s.flights[id].from == startBlock - 1 <= s.flights[id].phase.to
    && s.flights[id].since == s.wipes && PassOk(s.flights[id].pass, chain, startBlock)
    && s.cursor.Some? && startBlock - 1 <= s.cursor.value && s.cursorSince < s.wipes
    && s.markers == map[] && s.applied == [] && s.tables == s.seed == Reset(s.seed)
  }

  lemma JustWipedIsReady(s: Machine, id: nat, chain: seq<Log>, startBlock: nat)
    requires JustWiped(s, id, chain, startBlock)
    ensures Ready(s, chain, startBlock)
  {
  }

  /** Passes in flight together after a fork: while the replay stays in order and no mark is
      stray, scores, receipts and identities are a fresh fold of the canonical logs applied
      since the last wipe, if rulings land on completions that kept their agent. */
  lemma ForkRebuiltTogether(s: Machine, id: nat, steps: seq<Step>, chain: seq<Log>, startBlock: nat)
    requires ChainOk(chain) && StepsOk(steps, chain, startBlock) && JustWiped(s, id, chain, startBlock)
    requires Orderly(s, steps, chain, startBlock)
    requires LawfulLogs(Canonical(chain, startBlock)) && RulingsAgree(s.seed.completions, Canonical(chain, startBlock))
    ensures OneFold(After(s, steps, chain), chain, startBlock) && Rebuilt(After(s, steps, chain), chain, startBlock)
  {
    JustWipedIsReady(s, id, chain, startBlock);
    OrderlyIsOneFold(s, steps, chain, startBlock);
    RunRows(s, steps, chain, startBlock, s.seed.completions);
    FoldIsRebuilt(After(s, steps, chain), chain, startBlock, s.seed.completions);
  }

  /** A pass alone that sees a mismatch leaves such a machine, if it has blocks to scan. */
  lemma WipeIsJustWiped(s: Machine, id: nat, chain: seq<Log>, startBlock: nat)
    requires id in s.flights && s.flights == map[id := s.flights[id]] && s.flights[id].phase.Looking?
    requires var f := s.flights[id];
      && PassOk(f.pass, chain, startBlock) && f.chunks > 0 && startBlock - 1 < SafeHead(f.pass)
      && Differ(f.phase.hash, f.pass.provider.hashAt(f.phase.cursor))
    requires s.cursor.Some? && startBlock - 1 <= s.cursor.value && s.cursorSince <= s.wipes
    ensures JustWiped(Move(s, Look(id), chain), id, chain, startBlock)
    ensures Move(s, Look(id), chain).tables == Reset(s.tables)
  {
    var s' := Move(s, Look(id), chain);
    assert s'.flights == map[id := s'.flights[id]];
  }
}
