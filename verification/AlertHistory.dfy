/** The alert table over whole schedules of indexing passes, one after the other: which events it
    knows, what retention may have taken, and what a rebuild leaves of an
    abandoned fork. */
module AlertHistory {

  import opened Parties
  import opened Alerts
  import opened IndexDb
  import opened IndexTrail
  import opened IndexHistory

  /** The log raises the alert of this event. */
  predicate Raises(log: Log, kind: string, block: nat, tx: nat)
  {
    AlertKind(log.event) == Some(kind) && log.block == block && log.key.tx == tx
  }

  predicate RaisedBy(logs: seq<Log>, kind: string, block: nat, tx: nat)
  {
    exists i :: 0 <= i < |logs| && Raises(logs[i], kind, block, tx)
  }

  // ---- what folding logs makes known ----

  lemma OneLogKnows(t: Table, log: Log, kind: string, block: nat, tx: nat)
    ensures Known(RaiseAlert(t, log).rows, kind, block, tx)
            <==> Known(t.rows, kind, block, tx) || Raises(log, kind, block, tx)
  {
    var k := AlertKind(log.event);
    if k.Some? && !Known(t.rows, k.value, log.block, log.key.tx) {
      var row := Alert(t.lastId + 1, k.value, log.block, log.key.tx);
      var rows := RaiseAlert(t, log).rows;
      assert rows == t.rows + [row];
      assert row in rows && forall r :: r in rows <==> r in t.rows || r == row;
    }
  }

  /** An event is known after these logs exactly when it was known before or one of them raises it. */
  lemma {:induction false} FoldKnows(t: Table, logs: seq<Log>, kind: string, block: nat, tx: nat)
    ensures Known(FoldAlerts(t, logs).rows, kind, block, tx)
       <==> Known(t.rows, kind, block, tx) || RaisedBy(logs, kind, block, tx)
  {
    if logs != [] {
      var n := |logs| - 1;
      FoldKnows(t, logs[..n], kind, block, tx);
      OneLogKnows(FoldAlerts(t, logs[..n]), logs[n], kind, block, tx);
      PrefixRaises(logs, n, kind, block, tx);
      if RaisedBy(logs, kind, block, tx) {
        var i :| 0 <= i < |logs| && Raises(logs[i], kind, block, tx);
        assert i < n ==> Raises(logs[..n][i], kind, block, tx);
      }
    }
  }

  lemma PrefixRaises(logs: seq<Log>, n: nat, kind: string, block: nat, tx: nat)
    requires n <= |logs|
    ensures RaisedBy(logs[..n], kind, block, tx) ==> RaisedBy(logs, kind, block, tx)
  {
    if RaisedBy(logs[..n], kind, block, tx) {
      var i :| 0 <= i < n && Raises(logs[..n][i], kind, block, tx);
      assert Raises(logs[i], kind, block, tx);
    }
  }

  lemma DropKnows(t: Table, fromBlock: nat, kind: string, block: nat, tx: nat)
    ensures Known(DropFrom(t, fromBlock).rows, kind, block, tx) <==> Known(t.rows, kind, block, tx) && block < fromBlock
  {
  }

  // ---- every event of the applied logs ----

  /** Log `i` has been raised, and no drop came after. */
  predicate RaisedSince(ops: seq<AlertOp>, i: nat)
  {
    ops != [] &&
    var last := ops[|ops| - 1];
    !last.Dropped? && ((last.Raised? && last.lo <= i < last.hi) || RaisedSince(ops[..|ops| - 1], i))
  }

  /** A prune took the event's row, whose id was within what the pruner had been
      told is delivered. */
  ghost predicate TakenAsDelivered(t: Table, chain: seq<Log>, ops: seq<AlertOp>, kind: string, block: nat, tx: nat)
  {
    ops != [] &&
    var before, last := ops[..|ops| - 1], ops[|ops| - 1];
    || (last.Pruned? && last.keep > 0
        && exists r :: r in ReplayAlerts(t, chain, before).rows && SameEvent(r, kind, block, tx) && r.id <= last.upTo)
    || TakenAsDelivered(t, chain, before, kind, block, tx)
  }

  lemma PruneKnows(t: Table, keep: int, upTo: int, kind: string, block: nat, tx: nat)
    requires Known(t.rows, kind, block, tx)
    ensures Known(Prune(t, keep, upTo).rows, kind, block, tx)
         || (keep > 0 && exists r :: r in t.rows && SameEvent(r, kind, block, tx) && r.id <= upTo)
  {
    var r :| r in t.rows && SameEvent(r, kind, block, tx);
    if keep > 0 && r.id > upTo {
      assert Retained(t.rows, keep, upTo)(r);
    }
  }

  /** The event of an applied log is known, or its alert was within the delivered ids when it was pruned. */
  lemma {:induction false} EventKept(t: Table, chain: seq<Log>, ops: seq<AlertOp>, i: nat, kind: string)
    requires i < |chain| && AlertKind(chain[i].event) == Some(kind) && RaisedSince(ops, i)
    requires forall op :: op in ops && op.Raised? ==> op.lo <= op.hi <= |chain|
    ensures Known(ReplayAlerts(t, chain, ops).rows, kind, chain[i].block, chain[i].key.tx)
         || TakenAsDelivered(t, chain, ops, kind, chain[i].block, chain[i].key.tx)
  {
    var block, tx := chain[i].block, chain[i].key.tx;
    var before, last := ops[..|ops| - 1], ops[|ops| - 1];
    var u := ReplayAlerts(t, chain, before);
    if last.Raised? {
      FoldKnows(u, Cut(chain, last.lo, last.hi), kind, block, tx);
      if last.lo <= i < last.hi {
        assert Raises(Cut(chain, last.lo, last.hi)[i - last.lo], kind, block, tx);
      } else {
        EventKept(t, chain, before, i, kind);
      }
    } else {
      EventKept(t, chain, before, i, kind);
      if Known(u.rows, kind, block, tx) {
        PruneKnows(u, last.keep, last.upTo, kind, block, tx);
      }
    }
  }

  /** Every log of the last piece has been raised since the last drop. */
  ghost predicate AllRaised(x: Trail, chain: seq<Log>)
  {
    && (forall op :: op in x.alertOps && op.Raised? ==> op.lo <= op.hi <= |chain|)
    && (x.pieces != [] ==> forall i: nat :: LastPiece(x).lo <= i < LastPiece(x).hi ==> RaisedSince(x.alertOps, i))
  }

  lemma BeginRaises(x: Trail, p: Pass, chain: seq<Log>)
    requires CanPoll(x, p) && AllRaised(x, chain)
    ensures AllRaised(Begin(x, p, chain), chain)
  {
  }

  lemma OneOpMore(ops: seq<AlertOp>, op: AlertOp, i: nat)
    ensures RaisedSince(ops + [op], i) <==> !op.Dropped? && ((op.Raised? && op.lo <= i < op.hi) || RaisedSince(ops, i))
  {
    assert (ops + [op])[..|ops|] == ops;
  }

  lemma PollRaises(x: Trail, p: Pass, chain: seq<Log>, startBlock: nat)
    requires TrailOk(x, chain, startBlock) && CanPoll(x, p) && p.opts.startBlock == startBlock && p.opts.chunkSize >= 1
    requires AllRaised(x, chain)
    ensures AllRaised(Poll(x, p, chain), chain)
  {
    BeginKeepsTrail(x, p, chain, startBlock);
    BeginRaises(x, p, chain);
    var y := Begin(x, p, chain);
    ScanBounds(chain, y.scanned, SafeHead(p), p.opts.chunkSize, p.opts.maxChunks, LastPiece(y).hi, p.budget);
    var r := ScanOf(y, p, chain);
    var ops := y.alertOps + [Raised(LastPiece(y).hi, r.n)];
    forall i: nat | LastPiece(y).lo <= i < r.n
      ensures RaisedSince(ops, i) && RaisedSince(ops + [Pruned(p.opts.alertsKeep, p.opts.deliveredUpTo)], i)
    {
      OneOpMore(y.alertOps, Raised(LastPiece(y).hi, r.n), i);
      OneOpMore(ops, Pruned(p.opts.alertsKeep, p.opts.deliveredUpTo), i);
    }
  }

  lemma {:induction false} RunRaises(x: Trail, passes: seq<Pass>, chain: seq<Log>, startBlock: nat)
    requires TrailOk(x, chain, startBlock) && PassesOk(passes, chain, startBlock) && CanRun(x, passes)
    requires AllRaised(x, chain)
    ensures AllRaised(Run(x, passes, chain), chain)
  {
    if passes != [] {
      var k := |passes| - 1;
      assert PassOk(passes[k], chain, startBlock);
      RunRaises(x, passes[..k], chain, startBlock);
      RunKeepsTrail(x, passes[..k], chain, startBlock);
      PollRaises(Run(x, passes[..k], chain), passes[k], chain, startBlock);
    }
  }

  /** After any schedule, deaths and rebuilds included, the event of every log
      applied since the last reset is in the table, or was pruned as delivered. */
  lemma EveryEventKept(x: Trail, passes: seq<Pass>, chain: seq<Log>, startBlock: nat, t: Table, i: nat, kind: string)
    requires TrailOk(x, chain, startBlock) && PassesOk(passes, chain, startBlock) && CanRun(x, passes)
    requires AllRaised(x, chain) && Run(x, passes, chain).pieces != []
    requires LastPiece(Run(x, passes, chain)).lo <= i < LastPiece(Run(x, passes, chain)).hi
    requires i < |chain| && AlertKind(chain[i].event) == Some(kind)
    ensures
      var ops := Run(x, passes, chain).alertOps;
      || Known(ReplayAlerts(t, chain, ops).rows, kind, chain[i].block, chain[i].key.tx)
      || TakenAsDelivered(t, chain, ops, kind, chain[i].block, chain[i].key.tx)
  {
    RunRaises(x, passes, chain, startBlock);
    EventKept(t, chain, Run(x, passes, chain).alertOps, i, kind);
  }

  // ---- with retention off ----

  predicate KeepsAll(p: Pass)
  {
    p.opts.alertsKeep <= 0
  }

  lemma FoldAlertsStep(t: Table, logs: seq<Log>)
    requires logs != []
    ensures FoldAlerts(t, logs) == RaiseAlert(FoldAlerts(t, logs[..|logs| - 1]), logs[|logs| - 1])
  {
  }

  lemma {:induction false} FoldAlertsSplit(t: Table, logs: seq<Log>, k: nat)
    requires k <= |logs|
    ensures FoldAlerts(t, logs) == FoldAlerts(FoldAlerts(t, logs[..k]), logs[k..])
  {
    if k == |logs| {
      assert logs[..k] == logs && logs[k..] == [];
    } else {
      var n := |logs| - 1;
      FoldAlertsSplit(t, logs[..n], k);
      assert logs[..n][..k] == logs[..k] && logs[k..][..n - k] == logs[..n][k..];
      FoldAlertsStep(t, logs);
      FoldAlertsStep(FoldAlerts(t, logs[..k]), logs[k..]);
    }
  }

  lemma FoldAlertsJoin(t: Table, chain: seq<Log>, a: nat, b: nat, c: nat)
    requires a <= b <= c <= |chain|
    ensures FoldAlerts(FoldAlerts(t, Cut(chain, a, b)), Cut(chain, b, c)) == FoldAlerts(t, Cut(chain, a, c))
  {
    var logs := chain[a..c];
    assert logs[..b - a] == chain[a..b] && logs[b - a..] == chain[b..c];
    FoldAlertsSplit(t, logs, b - a);
  }

  /** What one pass that sees no mismatch and keeps all alerts does to them. */
  lemma PollAlerts(x: Trail, p: Pass, chain: seq<Log>, startBlock: nat, t: Table)
    requires x.pieces != [] && TrailOk(x, chain, startBlock) && p.opts.startBlock == startBlock && p.opts.chunkSize >= 1
    requires x.scanned == CursorOr(x.cursor, startBlock) && !Mismatch(x.cursor, x.hash, p.provider) && KeepsAll(p)
    ensures ReplayAlerts(t, chain, Poll(x, p, chain).alertOps)
         == FoldAlerts(ReplayAlerts(t, chain, x.alertOps), Cut(chain, LastPiece(x).hi, LastPiece(Poll(x, p, chain)).hi))
  {
    var y := Begin(x, p, chain);
    var r := ScanOf(y, p, chain);
    var ops := y.alertOps + [Raised(LastPiece(y).hi, r.n)];
    var pruned := ops + [Pruned(p.opts.alertsKeep, p.opts.deliveredUpTo)];
    assert ops[..|y.alertOps|] == y.alertOps && pruned[..|ops|] == ops;
    assert ReplayAlerts(t, chain, ops)
        == FoldAlerts(ReplayAlerts(t, chain, x.alertOps), Cut(chain, LastPiece(x).hi, r.n));
    assert ReplayAlerts(t, chain, pruned) == ReplayAlerts(t, chain, ops);
  }

  /** An untorn schedule over an unforked chain, retention off: the alerts are the
      fold of the same logs as the tables. */
  lemma {:induction false} AlertsAreOneFold(x: Trail, passes: seq<Pass>, chain: seq<Log>, startBlock: nat,
                                            blockHash: int -> nat, t: Table)
    requires x.pieces != [] && TrailOk(x, chain, startBlock) && PassesOk(passes, chain, startBlock)
    requires x.scanned == CursorOr(x.cursor, startBlock) && HashOk(x, blockHash)
    requires forall i :: 0 <= i < |passes| ==> Honest(passes[i].provider, blockHash) && KeepsAll(passes[i])
    requires NoTears(x, passes, chain)
    ensures LastPiece(x).hi <= LastPiece(Run(x, passes, chain)).hi <= |chain|
    ensures ReplayAlerts(t, chain, Run(x, passes, chain).alertOps)
         == FoldAlerts(ReplayAlerts(t, chain, x.alertOps),
                       Cut(chain, LastPiece(x).hi, LastPiece(Run(x, passes, chain)).hi))
  {
    RunKeepsTrail(x, passes, chain, startBlock);
    UntornRun(x, passes, chain, startBlock, blockHash);
    if passes == [] {
      assert Cut(chain, LastPiece(x).hi, LastPiece(x).hi) == [];
    } else {
      var k := |passes| - 1;
      NoTearsPrefix(x, passes, k, chain);
      AlertsAreOneFold(x, passes[..k], chain, startBlock, blockHash, t);
      RunKeepsTrail(x, passes[..k], chain, startBlock);
      UntornRun(x, passes[..k], chain, startBlock, blockHash);
      var y := Run(x, passes[..k], chain);
      PollHash(y, passes[k], chain, startBlock, blockHash);
      UntornPoll(y, passes[k], chain, startBlock);
      PollAlerts(y, passes[k], chain, startBlock, t);
      FoldAlertsJoin(ReplayAlerts(t, chain, x.alertOps), chain, LastPiece(x).hi, LastPiece(y).hi,
                     LastPiece(Run(x, passes, chain)).hi);
    }
  }

  // ---- alerts of an abandoned fork ----

  /** The alert is of no event on the canonical chain. */
  predicate Orphan(r: Alert, canonical: seq<Log>)
  {
    !RaisedBy(canonical, r.kind, r.blockNumber, r.txHash)
  }

  ghost predicate OrphanLeft(t: Table, canonical: seq<Log>)
  {
    exists r :: r in t.rows && Orphan(r, canonical)
  }

  /** The log is of the abandoned fork only, and lies below the cursor the reset starts from. */
  predicate SparedOrphan(log: Log, forkBlock: nat, cursor: nat, canonical: seq<Log>)
  {
    && forkBlock < log.block < cursor && AlertKind(log.event).Some?
    && !RaisedBy(canonical, AlertKind(log.event).value, log.block, log.key.tx)
  }

  /** After dropping from the cursor on and replaying some canonical logs. */
  lemma OrphansLeftIff(abandoned: seq<Log>, canonical: seq<Log>, forkBlock: nat, cursor: nat, replayed: seq<Log>)
    requires forall log :: log in replayed ==> log in canonical
    requires forall log :: log in abandoned && log.block <= forkBlock ==> log in canonical
    ensures
      var before := FoldAlerts(Table([], 0), abandoned);
      OrphanLeft(FoldAlerts(DropFrom(before, cursor), replayed), canonical)
      <==> exists log :: log in abandoned && SparedOrphan(log, forkBlock, cursor, canonical)
  {
    var after := FoldAlerts(DropFrom(FoldAlerts(Table([], 0), abandoned), cursor), replayed);
    if OrphanLeft(after, canonical) {
      var r :| r in after.rows && Orphan(r, canonical);
      OrphanCameFrom(abandoned, canonical, cursor, replayed, r);
      var i :| 0 <= i < |abandoned| && Raises(abandoned[i], r.kind, r.blockNumber, r.txHash);
      NotCanonical(abandoned[i], canonical, r.kind, r.blockNumber, r.txHash);
      assert SparedOrphan(abandoned[i], forkBlock, cursor, canonical);
    }
    if exists log :: log in abandoned && SparedOrphan(log, forkBlock, cursor, canonical) {
      var log :| log in abandoned && SparedOrphan(log, forkBlock, cursor, canonical);
      SparedStays(abandoned, canonical, forkBlock, cursor, replayed, log);
    }
  }

  lemma SparedStays(abandoned: seq<Log>, canonical: seq<Log>, forkBlock: nat, cursor: nat, replayed: seq<Log>, log: Log)
    requires log in abandoned && SparedOrphan(log, forkBlock, cursor, canonical)
    ensures OrphanLeft(FoldAlerts(DropFrom(FoldAlerts(Table([], 0), abandoned), cursor), replayed), canonical)
  {
    var before := FoldAlerts(Table([], 0), abandoned);
    var kind := AlertKind(log.event).value;
    var i :| 0 <= i < |abandoned| && abandoned[i] == log;
    assert Raises(abandoned[i], kind, log.block, log.key.tx);
    FoldKnows(Table([], 0), abandoned, kind, log.block, log.key.tx);
    DropKnows(before, cursor, kind, log.block, log.key.tx);
    FoldKnows(DropFrom(before, cursor), replayed, kind, log.block, log.key.tx);
    var after := FoldAlerts(DropFrom(before, cursor), replayed);
    var r :| r in after.rows && SameEvent(r, kind, log.block, log.key.tx);
    assert Orphan(r, canonical);
  }

  lemma NotCanonical(log: Log, canonical: seq<Log>, kind: string, block: nat, tx: nat)
    requires Raises(log, kind, block, tx) && !RaisedBy(canonical, kind, block, tx)
    ensures log !in canonical
  {
  }

  lemma CanonicalRaises(replayed: seq<Log>, canonical: seq<Log>, kind: string, block: nat, tx: nat)
    requires forall log :: log in replayed ==> log in canonical
    ensures RaisedBy(replayed, kind, block, tx) ==> RaisedBy(canonical, kind, block, tx)
  {
    if RaisedBy(replayed, kind, block, tx) {
      var i :| 0 <= i < |replayed| && Raises(replayed[i], kind, block, tx);
      assert replayed[i] in replayed;
      var j :| 0 <= j < |canonical| && canonical[j] == replayed[i];
      assert Raises(canonical[j], kind, block, tx);
    }
  }

  lemma OrphanCameFrom(abandoned: seq<Log>, canonical: seq<Log>, cursor: nat, replayed: seq<Log>, r: Alert)
    requires forall log :: log in replayed ==> log in canonical
    requires Orphan(r, canonical)
    requires r in FoldAlerts(DropFrom(FoldAlerts(Table([], 0), abandoned), cursor), replayed).rows
    ensures RaisedBy(abandoned, r.kind, r.blockNumber, r.txHash) && r.blockNumber < cursor
  {
    var before := FoldAlerts(Table([], 0), abandoned);
    FoldKnows(DropFrom(before, cursor), replayed, r.kind, r.blockNumber, r.txHash);
    DropKnows(before, cursor, r.kind, r.blockNumber, r.txHash);
    FoldKnows(Table([], 0), abandoned, r.kind, r.blockNumber, r.txHash);
    CanonicalRaises(replayed, canonical, r.kind, r.blockNumber, r.txHash);
  }

  /** The alerts when the pass that sees a fork has replayed what it does: those of blocks
      below the old cursor, and the replayed ones. */
  function ForkReplayed(x: Trail, p: Pass, chain: seq<Log>, t: Table): Table
    requires CanPoll(x, p) && x.cursor.Some? && x.cursor.value >= 0
  {
    FoldAlerts(DropFrom(t, x.cursor.value), Cut(chain, Base(chain, p.opts.startBlock), LastPiece(Poll(x, p, chain)).hi))
  }

  /** The pass that sees a fork, whatever becomes of it; retention runs if it gets there. */
  lemma ForkAlerts(x: Trail, p: Pass, chain: seq<Log>, t: Table)
    requires x.pieces == [] && x.alertOps == [] && Mismatch(x.cursor, x.hash, p.provider)
    ensures ReplayAlerts(t, chain, Poll(x, p, chain).alertOps)
         == if ScanOf(Begin(x, p, chain), p, chain).died then ForkReplayed(x, p, chain, t)
            else Prune(ForkReplayed(x, p, chain, t), p.opts.alertsKeep, p.opts.deliveredUpTo)
  {
    var y := Begin(x, p, chain);
    var r := ScanOf(y, p, chain);
    var ops := [Dropped(x.cursor.value), Raised(LastPiece(y).hi, r.n)];
    var pruned := ops + [Pruned(p.opts.alertsKeep, p.opts.deliveredUpTo)];
    assert ops[..1] == [Dropped(x.cursor.value)] && ops[..1][..0] == [] && pruned[..2] == ops;
    assert y.alertOps == [Dropped(x.cursor.value)];
    assert y.alertOps + [Raised(LastPiece(y).hi, r.n)] == ops;
    assert ReplayAlerts(t, chain, []) == t;
    assert ReplayAlerts(t, chain, ops[..1]) == DropFrom(t, x.cursor.value);
    assert ReplayAlerts(t, chain, pruned) == ApplyAlertOp(ReplayAlerts(t, chain, ops), chain, pruned[2]);
  }

  /** After the pass that sees a fork, an orphaned alert is left if and only if an
      alert-raising abandoned log lies strictly between the fork and the old cursor
      and its event is not on the canonical chain. */
  lemma ForkOrphansIff(abandoned: seq<Log>, chain: seq<Log>, forkBlock: nat, x: Trail, p: Pass)
    requires forall log :: log in abandoned && log.block <= forkBlock ==> log in chain
    requires x.pieces == [] && x.alertOps == [] && Mismatch(x.cursor, x.hash, p.provider)
    requires ScanOf(Begin(x, p, chain), p, chain).died || KeepsAll(p)
    ensures OrphanLeft(ReplayAlerts(FoldAlerts(Table([], 0), abandoned), chain, Poll(x, p, chain).alertOps), chain)
       <==> exists log :: log in abandoned && SparedOrphan(log, forkBlock, x.cursor.value, chain)
  {
    ForkAlerts(x, p, chain, FoldAlerts(Table([], 0), abandoned));
    var replayed := Cut(chain, Base(chain, p.opts.startBlock), LastPiece(Poll(x, p, chain)).hi);
    assert forall log :: log in replayed ==> log in chain;
    OrphansLeftIff(abandoned, chain, forkBlock, x.cursor.value, replayed);
  }

  /** The row of such a log. */
  ghost predicate SparedRow(r: Alert, abandoned: seq<Log>, chain: seq<Log>, forkBlock: nat, cursor: nat)
  {
    exists log :: log in abandoned && SparedOrphan(log, forkBlock, cursor, chain)
                  && Raises(log, r.kind, r.blockNumber, r.txHash)
  }

  /** With retention on, a pass that gets to its end leaves an orphaned alert if and only if
      it leaves the row of such a log: one of the newest rows, or beyond what is delivered. */
  lemma ForkOrphansPrunedIff(abandoned: seq<Log>, chain: seq<Log>, forkBlock: nat, x: Trail, p: Pass)
    requires forall log :: log in abandoned && log.block <= forkBlock ==> log in chain
    requires x.pieces == [] && x.alertOps == [] && Mismatch(x.cursor, x.hash, p.provider)
    requires !ScanOf(Begin(x, p, chain), p, chain).died && p.opts.alertsKeep > 0
    ensures
      var t := FoldAlerts(Table([], 0), abandoned);
      var rows := ForkReplayed(x, p, chain, t).rows;
      OrphanLeft(ReplayAlerts(t, chain, Poll(x, p, chain).alertOps), chain)
      <==> exists r :: r in rows && SparedRow(r, abandoned, chain, forkBlock, x.cursor.value)
                       && Retained(rows, p.opts.alertsKeep, p.opts.deliveredUpTo)(r)
  {
    var t := FoldAlerts(Table([], 0), abandoned);
    ForkAlerts(x, p, chain, t);
    var replayed := Cut(chain, Base(chain, p.opts.startBlock), LastPiece(Poll(x, p, chain)).hi);
    assert forall log :: log in replayed ==> log in chain;
    forall r | r in ForkReplayed(x, p, chain, t).rows
      ensures Orphan(r, chain) <==> SparedRow(r, abandoned, chain, forkBlock, x.cursor.value)
    {
      OrphanIsSpared(abandoned, chain, forkBlock, x.cursor.value, replayed, r);
    }
  }

  lemma OrphanIsSpared(abandoned: seq<Log>, canonical: seq<Log>, forkBlock: nat, cursor: nat, replayed: seq<Log>,
                       r: Alert)
    requires forall log :: log in replayed ==> log in canonical
    requires forall log :: log in abandoned && log.block <= forkBlock ==> log in canonical
    requires r in FoldAlerts(DropFrom(FoldAlerts(Table([], 0), abandoned), cursor), replayed).rows
    ensures Orphan(r, canonical) <==> SparedRow(r, abandoned, canonical, forkBlock, cursor)
  {
    if Orphan(r, canonical) {
      OrphanCameFrom(abandoned, canonical, cursor, replayed, r);
      var i :| 0 <= i < |abandoned| && Raises(abandoned[i], r.kind, r.blockNumber, r.txHash);
      NotCanonical(abandoned[i], canonical, r.kind, r.blockNumber, r.txHash);
      assert abandoned[i] in abandoned && SparedOrphan(abandoned[i], forkBlock, cursor, canonical);
    }
  }
}
