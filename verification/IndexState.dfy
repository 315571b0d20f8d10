/** What an index that follows a trail holds, as a statement about values: its
    tables, markers, alerts, cursor and hash. The loops of `Indexer` and the steps of
    `Overlap` are both proved to keep to it. */
module IndexState {

  import opened Parties
  import opened Alerts
  import opened IndexDb
  import opened ChainLogs
  import opened IndexTrail

  /** Logs from position `lo` to `n` carry a marker, later ones carry none. */
  ghost predicate Marked(markers: map<LogKey, nat>, chain: seq<Log>, lo: nat, n: nat)
  {
    && (forall i :: lo <= i < n && i < |chain| ==> chain[i].key in markers)
    && (forall i :: n <= i < |chain| ==> chain[i].key !in markers)
    && (forall i :: 0 <= i < |chain| && chain[i].key in markers ==> markers[chain[i].key] == chain[i].block)
  }

  /** The tables are exactly the logs from `base` to `n` folded onto `seed`, and a
      scan resuming after block `from` can tell which of them it has applied. */
  ghost predicate Synced(t: Tables, markers: map<LogKey, nat>, chain: seq<Log>, base: nat, n: nat, from: int,
                         seed: Tables)
  {
    && ChainOk(chain)
    && base <= n <= |chain|
    && base <= Upto(chain, from) <= n
    && t == Fold(seed, chain[base..n])
    && Marked(markers, chain, Upto(chain, from), n)
  }

  lemma FoldOneMore(seed: Tables, chain: seq<Log>, base: nat, n: nat)
    requires base <= n < |chain|
    ensures Fold(seed, chain[base..n + 1]) == ApplyLog(Fold(seed, chain[base..n]), chain[n])
  {
    var part := chain[base..n + 1];
    assert part[..|part| - 1] == chain[base..n] && part[|part| - 1] == chain[n];
  }

  lemma MarkedOneMore(markers: map<LogKey, nat>, chain: seq<Log>, lo: nat, n: nat)
    requires ChainOk(chain) && Marked(markers, chain, lo, n) && n < |chain|
    ensures Marked(markers[chain[n].key := chain[n].block], chain, lo, n + 1)
  {
  }

  /** Moving the resume point forward over logs already applied. */
  lemma SyncedAdvance(t: Tables, markers: map<LogKey, nat>, chain: seq<Log>, base: nat, n: nat, from: int, to: int,
                      seed: Tables)
    requires Synced(t, markers, chain, base, n, from, seed)
    requires from <= to && Upto(chain, to) <= n
    ensures Synced(t, markers, chain, base, n, to, seed)
  {
    UptoMonotone(chain, from, to);
  }

  /** Pruning markers behind the resume point forgets nothing a re-scan needs. */
  lemma SyncedPruned(t: Tables, markers: map<LogKey, nat>, chain: seq<Log>, base: nat, n: nat, from: int, seed: Tables,
                     currentBlock: int, keepBlocks: int)
    requires Synced(t, markers, chain, base, n, from, seed)
    requires currentBlock <= from + 1 || Upto(chain, from) == n
    ensures Synced(t, RecentMarkers(markers, currentBlock, keepBlocks), chain, base, n, from, seed)
  {
    forall i | Upto(chain, from) <= i < n
      ensures chain[i].block > from
    {
      UptoSplits(chain, from, i);
    }
  }

  /** A chain not yet looked at. */
  lemma SyncedAtStart(chain: seq<Log>, startBlock: nat, seed: Tables)
    requires ChainOk(chain)
    ensures var base := Upto(chain, startBlock - 1);
      Synced(seed, map[], chain, base, base, startBlock - 1, seed)
  {
    assert chain[Upto(chain, startBlock - 1)..Upto(chain, startBlock - 1)] == [];
  }

  /** A resume point that passes over logs starts counting afresh from there. */
  lemma SyncedAnew(t: Tables, markers: map<LogKey, nat>, chain: seq<Log>, base: nat, n: nat, from: int, to: int,
                   seed: Tables)
    requires Synced(t, markers, chain, base, n, from, seed) && n < Upto(chain, to)
    ensures Synced(t, markers, chain, Upto(chain, to), Upto(chain, to), to, t)
  {
    assert chain[Upto(chain, to)..Upto(chain, to)] == [];
  }

  lemma AlertsOneMore(t: Table, chain: seq<Log>, n0: nat, n: nat)
    requires n0 <= n < |chain|
    ensures FoldAlerts(t, Cut(chain, n0, n + 1)) == RaiseAlert(FoldAlerts(t, Cut(chain, n0, n)), chain[n])
  {
    assert chain[n0..n + 1][..n - n0] == chain[n0..n];
  }

  lemma OnePruneMore(aseed: Table, chain: seq<Log>, ops: seq<AlertOp>, keep: int, upTo: int)
    ensures ReplayAlerts(aseed, chain, ops + [Pruned(keep, upTo)]) == Prune(ReplayAlerts(aseed, chain, ops), keep, upTo)
  {
    assert (ops + [Pruned(keep, upTo)])[..|ops|] == ops;
  }

  /** What the object should hold. */
  datatype Held = Held(tables: Tables, alerts: Table)

  function Next(n: nat): nat { n + 1 }

  /** From position `base` on, each log takes `held` one step further. */
  ghost predicate Steps(held: nat -> Held, chain: seq<Log>, base: nat)
  {
    forall n: nat {:trigger Next(n)} :: base <= n < |chain| ==>
      held(Next(n)) == Held(ApplyLog(held(n).tables, chain[n]), RaiseAlert(held(n).alerts, chain[n]))
  }

  /** Logs from `lo` on folded into the tables, those from `n0` on into the alerts. */
  function Folds(chain: seq<Log>, lo: nat, n0: nat, seed: Tables, aseed: Table): nat -> Held
  {
    (n: nat) => Held(Fold(seed, Cut(chain, lo, n)), FoldAlerts(aseed, Cut(chain, n0, n)))
  }

  lemma FoldsStep(chain: seq<Log>, lo: nat, n0: nat, seed: Tables, aseed: Table)
    requires lo <= n0
    ensures Steps(Folds(chain, lo, n0, seed, aseed), chain, n0)
  {
    var held := Folds(chain, lo, n0, seed, aseed);
    forall n: nat | n0 <= n < |chain|
      ensures held(Next(n)) == Held(ApplyLog(held(n).tables, chain[n]), RaiseAlert(held(n).alerts, chain[n]))
    {
      FoldOneMore(seed, chain, lo, n);
      AlertsOneMore(aseed, chain, n0, n);
    }
  }

  /** Tables, markers and alerts of a scan that has applied `n` logs and resumes after `from`. */
  ghost predicate HeldAt(t: Tables, markers: map<LogKey, nat>, a: Table, chain: seq<Log>, base: nat, n: nat, from: int,
                         held: nat -> Held)
  {
    && Steps(held, chain, base)
    && ChainOk(chain) && base <= n <= |chain| && Upto(chain, from) <= n
    && Marked(markers, chain, Upto(chain, from), n)
    && Valid(a) && EventsUnique(a.rows) && Held(t, a) == held(n)
  }

  /** Applying and marking the next log. */
  lemma HeldOneMore(t: Tables, markers: map<LogKey, nat>, a: Table, chain: seq<Log>, base: nat, n: nat, from: int,
                    held: nat -> Held)
    requires HeldAt(t, markers, a, chain, base, n, from, held) && n < |chain|
    ensures HeldAt(ApplyLog(t, chain[n]), markers[chain[n].key := chain[n].block], RaiseAlert(a, chain[n]), chain, base,
                   n + 1, from, held)
  {
    MarkedOneMore(markers, chain, Upto(chain, from), n);
    var kind := AlertKind(chain[n].event);
    if kind.Some? {
      RecordValid(a, kind.value, chain[n].block, chain[n].key.tx);
    }
    assert held(Next(n)) == Held(ApplyLog(t, chain[n]), RaiseAlert(a, chain[n]));
  }

  /** The same store, for a scan that resumes further on. */
  lemma HeldAdvance(t: Tables, markers: map<LogKey, nat>, a: Table, chain: seq<Log>, base: nat, n: nat, from: int,
                    to: int, held: nat -> Held)
    requires HeldAt(t, markers, a, chain, base, n, from, held) && from <= to && Upto(chain, to) <= n
    ensures HeldAt(t, markers, a, chain, base, n, to, held)
  {
    UptoMonotone(chain, from, to);
  }

  // ---- following a trail ----

  /** Everything the process stores. */
  datatype Store = Store(tables: Tables, markers: map<LogKey, nat>, alerts: Table, cursor: Option<int>, hash: nat)

  /** Alert ids in order, one alert per event. */
  ghost predicate AlertsFine(t: Table)
  {
    Valid(t) && EventsUnique(t.rows)
  }

  /** The store is where the trail says, over the tables and alerts it began with. */
  ghost predicate Keeps(m: Store, x: Trail, chain: seq<Log>, seed: Tables, aseed: Table)
  {
    && m.cursor == x.cursor && m.hash == x.hash
    && AlertsFine(m.alerts) && m.alerts == ReplayAlerts(aseed, chain, x.alertOps)
    && (if x.pieces == [] then m.tables == seed
        else Synced(m.tables, m.markers, chain, LastPiece(x).lo, LastPiece(x).hi, x.scanned,
                    SeedOf(seed, chain, x.pieces)))
  }

  /** A store with nothing in it. */
  const NO_STORE := Store(NO_TABLES, map[], Table([], 0), None, 0)

  lemma StartKeeps(chain: seq<Log>, startBlock: nat)
    requires ChainOk(chain)
    ensures Keeps(NO_STORE, Start(chain, startBlock), chain, NO_TABLES, Table([], 0))
  {
    var x := Start(chain, startBlock);
    SyncedAtStart(chain, startBlock, NO_TABLES);
    assert x.pieces[..0] == [] && Replay(NO_TABLES, chain, []) == NO_TABLES;
    assert SeedOf(NO_TABLES, chain, x.pieces) == NO_TABLES;
  }

  /** The store as a rebuild begins. */
  lemma KeepsRebuild(m: Store, m': Store, chain: seq<Log>, x: Trail, startBlock: nat, seed: Tables, aseed: Table)
    requires ChainOk(chain) && x.cursor.Some? && x.cursor.value > 0 && Keeps(m, x, chain, seed, aseed)
    requires m' == m.(tables := Reset(m.tables), markers := map[], alerts := DropFrom(m.alerts, x.cursor.value))
    ensures Keeps(m', Rebuild(x, chain, startBlock), chain, seed, aseed)
  {
    var y := Rebuild(x, chain, startBlock);
    assert y.pieces[..|y.pieces| - 1] == x.pieces;
    assert y.alertOps[..|y.alertOps| - 1] == x.alertOps;
    assert m.tables == Replay(seed, chain, x.pieces);
    SyncedAtStart(chain, startBlock, m'.tables);
    FilterValid(m.alerts, (r: Alert) => r.blockNumber < x.cursor.value);
  }

  /** The same store, seen from the stored cursor. */
  lemma KeepsResume(m: Store, chain: seq<Log>, x: Trail, startBlock: nat, seed: Tables, aseed: Table)
    requires x.pieces != [] && TrailOk(x, chain, startBlock) && Keeps(m, x, chain, seed, aseed)
    ensures Keeps(m, Resume(x, chain, startBlock), chain, seed, aseed)
  {
    var from := CursorOr(x.cursor, startBlock);
    var last := LastPiece(x);
    if last.hi >= Upto(chain, from) {
      SyncedAdvance(m.tables, m.markers, chain, last.lo, last.hi, x.scanned, from, SeedOf(seed, chain, x.pieces));
    } else {
      var y := Resume(x, chain, startBlock);
      assert y.pieces[..|y.pieces| - 1] == x.pieces;
      SyncedAnew(m.tables, m.markers, chain, last.lo, last.hi, x.scanned, from, SeedOf(seed, chain, x.pieces));
    }
  }

  /** What the store should hold as a scan from trail `y` goes on. */
  ghost function HeldBy(y: Trail, chain: seq<Log>, seed: Tables, aseed: Table): nat -> Held
    requires y.pieces != []
  {
    Folds(chain, LastPiece(y).lo, LastPiece(y).hi, SeedOf(seed, chain, y.pieces),
          ReplayAlerts(aseed, chain, y.alertOps))
  }

  lemma BeginScan(m: Store, chain: seq<Log>, y: Trail, seed: Tables, aseed: Table)
    requires y.pieces != [] && Keeps(m, y, chain, seed, aseed)
    ensures HeldAt(m.tables, m.markers, m.alerts, chain, LastPiece(y).hi, LastPiece(y).hi, y.scanned,
                   HeldBy(y, chain, seed, aseed))
  {
    var last := LastPiece(y);
    FoldsStep(chain, last.lo, last.hi, SeedOf(seed, chain, y.pieces), ReplayAlerts(aseed, chain, y.alertOps));
    assert Cut(chain, last.hi, last.hi) == [];
  }

  lemma ScannedTrail(y: Trail, pass: Pass, r: Reach, chain: seq<Log>, seed: Tables, aseed: Table)
    requires y.pieces != []
    ensures var z := Scanned(y, pass, r);
      && LastPiece(z) == LastPiece(y).(hi := r.n)
      && SeedOf(seed, chain, z.pieces) == SeedOf(seed, chain, y.pieces)
      && ReplayAlerts(aseed, chain, z.alertOps)
           == FoldAlerts(ReplayAlerts(aseed, chain, y.alertOps), Cut(chain, LastPiece(y).hi, r.n))
  {
    var z := Scanned(y, pass, r);
    assert z.pieces[..|z.pieces| - 1] == y.pieces[..|y.pieces| - 1];
    assert z.alertOps[..|z.alertOps| - 1] == y.alertOps;
  }

  /** The store when a scan from trail `y` has come as far as `r`. */
  lemma KeepsScanned(m: Store, chain: seq<Log>, y: Trail, pass: Pass, r: Reach, startBlock: nat, seed: Tables,
                     aseed: Table)
    requires y.pieces != [] && TrailOk(y, chain, startBlock) && y.scanned <= r.block
    requires HeldAt(m.tables, m.markers, m.alerts, chain, LastPiece(y).hi, r.n, r.block, HeldBy(y, chain, seed, aseed))
    requires m.cursor == (if r.block == y.scanned then y.cursor else Some(r.block))
    requires m.hash == (if r.hashed.Some? then pass.provider.hashAt(r.hashed.value) else y.hash)
    ensures Keeps(m, Scanned(y, pass, r), chain, seed, aseed)
  {
    UptoMonotone(chain, y.scanned, r.block);
    ScannedTrail(y, pass, r, chain, seed, aseed);
  }

  /** The store after retention. */
  lemma KeepsPruned(m: Store, m': Store, chain: seq<Log>, z: Trail, opts: PollOptions, seed: Tables, aseed: Table)
    requires z.pieces != [] && Keeps(m, z, chain, seed, aseed)
    requires z.cursor == Some(z.scanned) || z.scanned == opts.startBlock - 1
    requires z.cursor.Some? && z.cursor.value != z.scanned ==> Upto(chain, z.scanned) == LastPiece(z).hi
    requires var lastBlock := if m.cursor.Some? then m.cursor.value else opts.startBlock;
      m' == m.(markers := RecentMarkers(m.markers, lastBlock, opts.markerBlocks),
               alerts := Prune(m.alerts, opts.alertsKeep, opts.deliveredUpTo))
    ensures Keeps(m', z.(alertOps := z.alertOps + [Pruned(opts.alertsKeep, opts.deliveredUpTo)]), chain, seed, aseed)
  {
    var lastBlock := if m.cursor.Some? then m.cursor.value else opts.startBlock;
    SyncedPruned(m.tables, m.markers, chain, LastPiece(z).lo, LastPiece(z).hi, z.scanned, SeedOf(seed, chain, z.pieces),
                 lastBlock, opts.markerBlocks);
    OnePruneMore(aseed, chain, z.alertOps, opts.alertsKeep, opts.deliveredUpTo);
    if opts.alertsKeep > 0 {
      FilterValid(m.alerts, Retained(m.alerts.rows, opts.alertsKeep, opts.deliveredUpTo));
    }
  }
}
