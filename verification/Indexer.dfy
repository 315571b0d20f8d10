/** The polling indexer: chunked, confirmation-delayed, idempotent. Here is a pass
    that runs with no other in flight; `Overlap` has them together. The methods
    write the tables statement by statement and are proved to follow the trail of
    `IndexTrail`, wherever a process dies between two of the steps counted there.
    What that makes of the tables is in `IndexHistory`, `AlertHistory` and `Rebuilds`. */
module Indexer {

  import opened Parties
  import opened Arithmetic
  import opened Alerts
  import opened IndexDb
  import opened ChainLogs
  import opened IndexTrail
  import opened IndexState
  import opened IndexBounds

  class LogIndexer {
    const db: Database
    const alerts: AlertTable

    constructor (db: Database, alerts: AlertTable)
      ensures this.db == db && this.alerts == alerts
    {
      this.db, this.alerts := db, alerts;
    }

    /** Alert ids in order, one alert per event. */
    ghost predicate AlertsOk()
      reads this, alerts
    {
      AlertsFine(alerts.Value())
    }

    /** The object holds what it should after `n` logs, and a scan can resume after `from`. */
    ghost predicate At(chain: seq<Log>, base: nat, n: nat, from: int, held: nat -> Held)
      reads this, db, alerts
    {
      HeldAt(db.Value(), db.markers, alerts.Value(), chain, base, n, from, held)
    }

    /** Apply one log: its alert, its tables, its marker. */
    method ApplyOne(log: Log)
      requires log.key !in db.markers && AlertsOk()
      modifies db`scores, db`receipts, db`identity, db`pairs, db`diversity, db`completions, db`capabilities
      modifies db`markers, alerts
      ensures db.Value() == ApplyLog(old(db.Value()), log)
      ensures db.markers == old(db.markers)[log.key := log.block]
      ensures alerts.Value() == RaiseAlert(old(alerts.Value()), log) && AlertsOk()
    {
      var kind := AlertKind(log.event);
      if kind.Some? {
        RecordValid(alerts.Value(), kind.value, log.block, log.key.tx);
        alerts.RecordAlert(kind.value, log.block, log.key.tx);
      }
      db.ApplyEvent(log);
      db.MarkIndexed(log);
    }

    /** Log `k` of the chain: skipped when marked, otherwise applied and marked. */
    method IndexLog(log: Log, ghost chain: seq<Log>, ghost k: nat, ghost base: nat, ghost n: nat,
                    ghost from: int, ghost held: nat -> Held) returns (ghost n': nat)
      requires At(chain, base, n, from, held)
      requires Upto(chain, from) <= k <= n && k < |chain| && log == chain[k]
      modifies db`scores, db`receipts, db`identity, db`pairs, db`diversity, db`completions, db`capabilities
      modifies db`markers, alerts
      ensures At(chain, base, n', from, held) && n' == MaxPos(n, k + 1)
    {
      n' := n;
      if log.key in db.markers {
        return;
      }
      ghost var markers := db.markers;
      ApplyOne(log);
      MarkedOneMore(markers, chain, Upto(chain, from), n);
      n' := Next(n);
    }

    /** Fetch a range and restore its order. */
    method FetchLogs(provider: Provider, ghost chain: seq<Log>, from: int, to: int) returns (logs: seq<Log>)
      requires Serves(provider, chain, to) && from < to
      ensures Upto(chain, from) <= Upto(chain, to)
      ensures logs == chain[Upto(chain, from)..Upto(chain, to)]
    {
      logs := provider.getLogs(from + 1, to);
      logs := SortLogs(logs);
      SliceOk(chain, from + 1, to);
      UptoMonotone(chain, from, to);
      SortIsUnique(logs, Slice(chain, from + 1, to));
    }

    /** Apply the logs of blocks `from + 1` to `to` that carry no marker yet.
        With `budget` steps the process dies after that many logs, or goes on
        with what is left; the state is a longer prefix of the chain either way,
        and a re-scan from the same cursor continues it. */
    method IndexRange(provider: Provider, ghost chain: seq<Log>, from: int, to: int, budget: Option<nat>,
                      ghost base: nat, ghost n: nat, ghost held: nat -> Held)
      returns (crashed: bool, left: Option<nat>, ghost n': nat)
      requires Serves(provider, chain, to) && from <= to
      requires At(chain, base, n, from, held)
      modifies db`scores, db`receipts, db`identity, db`pairs, db`diversity, db`completions, db`capabilities
      modifies db`markers, alerts
      ensures At(chain, base, n', from, held)
      ensures var logs := Upto(chain, to) - Upto(chain, from);
        && logs >= 0
        && (crashed <==> budget.Some? && budget.value < logs)
        && n' == (if crashed then MaxPos(n, Upto(chain, from) + budget.value) else MaxPos(n, Upto(chain, to)))
        && (!crashed ==> left == Spend(budget, logs))
    {
      UptoMonotone(chain, from, to);
      if from + 1 > to {
        crashed, left, n' := false, budget, n;
        return;
      }
      var logs := FetchLogs(provider, chain, from, to);
      crashed, left, n' := IndexLogs(logs, chain, from, Upto(chain, from), budget, base, n, held);
    }

    /** The loop over one answer, already in order. */
    method IndexLogs(logs: seq<Log>, ghost chain: seq<Log>, ghost from: int, ghost lo: nat, budget: Option<nat>,
                     ghost base: nat, ghost n: nat, ghost held: nat -> Held)
      returns (crashed: bool, left: Option<nat>, ghost n': nat)
      requires At(chain, base, n, from, held)
      requires lo == Upto(chain, from) && lo + |logs| <= |chain| && logs == chain[lo..lo + |logs|]
      modifies db`scores, db`receipts, db`identity, db`pairs, db`diversity, db`completions, db`capabilities
      modifies db`markers, alerts
      ensures At(chain, base, n', from, held)
      ensures crashed <==> budget.Some? && budget.value < |logs|
      ensures n' == MaxPos(n, lo + if crashed then budget.value else |logs|)
      ensures !crashed ==> left == Spend(budget, |logs|)
    {
      crashed, left, n' := false, budget, n;
      for i := 0 to |logs|
        invariant At(chain, base, n', from, held)
        invariant n' == MaxPos(n, lo + i) && !crashed
        invariant budget.Some? ==> i <= budget.value
        invariant left == Spend(budget, i)
      {
        crashed, left, n' := IndexNext(logs[i], chain, lo + i, left, base, n', from, held);
        if crashed {
          break;
        }
      }
    }

    /** The next log, unless the process dies before it. */
    method IndexNext(log: Log, ghost chain: seq<Log>, ghost k: nat, budget: Option<nat>, ghost base: nat, ghost n: nat,
                     ghost from: int, ghost held: nat -> Held)
      returns (crashed: bool, left: Option<nat>, ghost n': nat)
      requires At(chain, base, n, from, held)
      requires Upto(chain, from) <= k <= n && k < |chain| && log == chain[k]
      modifies db`scores, db`receipts, db`identity, db`pairs, db`diversity, db`completions, db`capabilities
      modifies db`markers, alerts
      ensures At(chain, base, n', from, held)
      ensures crashed <==> budget == Some(0)
      ensures n' == if crashed then n else MaxPos(n, k + 1)
      ensures left == if crashed then budget else Spend(budget, 1)
    {
      crashed, left, n' := budget == Some(0), budget, n;
      if !crashed {
        left := Spend(budget, 1);
        n' := IndexLog(log, chain, k, base, n, from, held);
      }
    }

    /** The same object, for a scan that resumes further on. */
    lemma AtAdvance(chain: seq<Log>, base: nat, n: nat, from: int, to: int, held: nat -> Held)
      requires At(chain, base, n, from, held) && from <= to && Upto(chain, to) <= n
      ensures At(chain, base, n, to, held)
    {
      UptoMonotone(chain, from, to);
    }

    /** The end of a chunk: the cursor write, then the hash write. Asking the node for
        the hash comes between the two, so a process can die there too. */
    method StoreProgress(hash: nat, from: int, to: int, budget: Option<nat>, ghost chain: seq<Log>, ghost base: nat,
                         ghost n: nat, ghost held: nat -> Held) returns (crashed: bool, left: Option<nat>)
      requires At(chain, base, n, from, held) && from < to && Upto(chain, to) <= n
      modifies db`lastBlock, db`lastHash
      ensures var c := FinishChunk(from, to, n, budget);
        && At(chain, base, n, c.block, held) && crashed == c.died
        && db.lastBlock == (if c.block == from then old(db.lastBlock) else Some(to))
        && db.lastHash == (if c.hashed.Some? then hash else old(db.lastHash))
      ensures left == Spend(budget, 2)
    {
      crashed, left := true, Spend(budget, 2);
      if budget == Some(0) {
        return;
      }
      AtAdvance(chain, base, n, from, to, held);
      db.lastBlock := Some(to);
      if budget == Some(1) {
        return;
      }
      db.lastHash := hash;
      crashed := false;
    }

    /** One chunk: its logs, then the cursor and the hash. */
    method ScanOneChunk(provider: Provider, ghost chain: seq<Log>, from: int, to: int, budget: Option<nat>,
                        ghost base: nat, ghost n: nat, ghost held: nat -> Held)
      returns (crashed: bool, left: Option<nat>)
      requires Serves(provider, chain, to) && from < to
      requires At(chain, base, n, from, held)
      modifies db, alerts
      ensures var c := ScanChunk(chain, from, to, n, budget);
        && At(chain, base, c.n, c.block, held) && crashed == c.died
        && db.lastBlock == (if c.block == from then old(db.lastBlock) else Some(to))
        && db.lastHash == (if c.hashed.Some? then provider.hashAt(to) else old(db.lastHash))
        && (!crashed ==> left == Spend(budget, Upto(chain, to) - Upto(chain, from) + 2))
    {
      ghost var n';
      crashed, left, n' := IndexRange(provider, chain, from, to, budget, base, n, held);
      ChunkFinishes(chain, from, to, n, budget);
      if !crashed {
        crashed, left := StoreProgress(provider.hashAt(to), from, to, left, chain, base, n', held);
      }
    }

    /** The object as a scan from block `from0` leaves it when it has come as far as `d`. */
    ghost predicate Reached(d: Reach, chain: seq<Log>, base: nat, held: nat -> Held, provider: Provider, from0: int,
                            cursor0: Option<int>, hash0: nat)
      reads this, db, alerts
    {
      && At(chain, base, d.n, d.block, held) && from0 <= d.block
      && db.lastBlock == (if d.block == from0 then cursor0 else Some(d.block))
      && db.lastHash == (if d.hashed.Some? then provider.hashAt(d.hashed.value) else hash0)
    }

    /** Index chunk after chunk up to the safe head. */
    method ScanChunks(provider: Provider, ghost chain: seq<Log>, from0: int, safeHead: int, chunkSize: nat,
                      maxChunks: nat, budget: Option<nat>, ghost base: nat, ghost n: nat, ghost held: nat -> Held,
                      ghost outcome: (Reach, nat, Option<nat>) -> Reach)
      returns (crashed: bool, ghost d: Reach)
      requires Serves(provider, chain, safeHead) && chunkSize >= 1 && Decides(outcome, chain, safeHead, chunkSize)
      requires At(chain, base, n, from0, held)
      modifies db, alerts
      ensures d == outcome(Reach(from0, None, n, false), maxChunks, budget) && crashed == d.died
      ensures Reached(d, chain, base, held, provider, from0, old(db.lastBlock), old(db.lastHash))
    {
      d := Reach(from0, None, n, false);
      ghost var whole := outcome(d, maxChunks, budget);
      var from, left, chunks := from0, budget, maxChunks;
      crashed := false;
      while !crashed && from < safeHead && chunks > 0
        invariant crashed == d.died && (!crashed ==> d.block == from)
        invariant Reached(d, chain, base, held, provider, from0, old(db.lastBlock), old(db.lastHash))
        invariant outcome(d, chunks, left) == whole
        decreases chunks
      {
        crashed, from, left, d := ScanNext(provider, chain, from, safeHead, chunkSize, chunks, left, base, d, held,
                                           from0, old(db.lastBlock), old(db.lastHash), outcome);
        chunks := chunks - 1;
      }
    }

    /** The next chunk of a scan. */
    method ScanNext(provider: Provider, ghost chain: seq<Log>, from: int, safeHead: int, chunkSize: nat,
                    ghost chunks: nat, budget: Option<nat>, ghost base: nat, ghost d: Reach, ghost held: nat -> Held,
                    ghost from0: int, ghost cursor0: Option<int>, ghost hash0: nat,
                    ghost outcome: (Reach, nat, Option<nat>) -> Reach)
      returns (crashed: bool, to: int, left: Option<nat>, ghost d': Reach)
      requires Serves(provider, chain, safeHead) && chunkSize >= 1 && Decides(outcome, chain, safeHead, chunkSize)
      requires !d.died && from == d.block && from < safeHead && chunks > 0
      requires Reached(d, chain, base, held, provider, from0, cursor0, hash0)
      modifies db, alerts
      ensures outcome(d', chunks - 1, left) == outcome(d, chunks, budget)
      ensures crashed == d'.died && (!crashed ==> to == d'.block)
      ensures Reached(d', chain, base, held, provider, from0, cursor0, hash0)
    {
      to := Min(safeHead, from + chunkSize);
      d' := Hashed(ScanChunk(chain, from, to, d.n, budget), d.hashed);
      crashed, left := ScanOneChunk(provider, chain, from, to, budget, base, d.n, held);
      assert OneChunk(chain, safeHead, chunkSize, d, d', budget, left);
    }

    /** The block last indexed no longer has the hash it had. */
    predicate ReorgSeen(provider: Provider)
      reads this, db
    {
      Mismatch(db.lastBlock, db.lastHash, provider)
    }

    /** What the object stores. */
    ghost function Stored(): Store
      reads this, db, alerts
    {
      Store(db.Value(), db.markers, alerts.Value(), db.lastBlock, db.lastHash)
    }

    /** The object is where the trail says, over the tables and alerts it began with. */
    ghost predicate Follows(x: Trail, chain: seq<Log>, seed: Tables, aseed: Table)
      reads this, db, alerts
    {
      Keeps(Stored(), x, chain, seed, aseed)
    }

    /** One indexing pass. A mismatch at the cursor first clears the derived tables
        and starts over; afterwards retention trims alerts and markers. The pass
        assumes the node right only about blocks with enough confirmations. */
    method PollOnce(pass: Pass, ghost chain: seq<Log>, ghost x: Trail, ghost seed: Tables, ghost aseed: Table)
      requires PassOk(pass, chain, pass.opts.startBlock) && TrailOk(x, chain, pass.opts.startBlock)
      requires CanPoll(x, pass) && Follows(x, chain, seed, aseed)
      modifies db, alerts
      ensures Follows(Poll(x, pass, chain), chain, seed, aseed)
      ensures
        var end := Min(pass.provider.head - pass.opts.confirmations,
                       StartsFrom(x, pass) + pass.opts.chunkSize * pass.opts.maxChunks);
        && (db.lastBlock == old(db.lastBlock)
            || (db.lastBlock.Some? && StartsFrom(x, pass) < db.lastBlock.value <= end))
        && (pass.budget.None? ==> db.lastBlock == if StartsFrom(x, pass) < end then Some(end) else old(db.lastBlock))
    {
      PassEndsAt(x, pass, chain, pass.opts.startBlock);
      BeginKeepsTrail(x, pass, chain, pass.opts.startBlock);
      var from := BeginPass(pass, chain, x, seed, aseed);
      ScanAndRetain(pass, chain, from, Begin(x, pass, chain), seed, aseed);
    }

    /** Compare the stored hash with the node's, and clear the derived tables on a mismatch. */
    method BeginPass(pass: Pass, ghost chain: seq<Log>, ghost x: Trail, ghost seed: Tables, ghost aseed: Table)
      returns (from: int)
      requires PassOk(pass, chain, pass.opts.startBlock) && TrailOk(x, chain, pass.opts.startBlock)
      requires CanPoll(x, pass) && Follows(x, chain, seed, aseed)
      modifies db, alerts
      ensures Follows(Begin(x, pass, chain), chain, seed, aseed)
      ensures from == Begin(x, pass, chain).scanned
      ensures from == CursorOr(x.cursor, pass.opts.startBlock)
              || LastPiece(Begin(x, pass, chain)).hi == Upto(chain, from)
    {
      from := CursorOr(db.lastBlock, pass.opts.startBlock);
      if ReorgSeen(pass.provider) {
        ghost var before := Stored();
        ClearForRebuild(db.lastBlock.value);
        from := pass.opts.startBlock - 1;
        KeepsRebuild(before, Stored(), chain, x, pass.opts.startBlock, seed, aseed);
      } else {
        KeepsResume(Stored(), chain, x, pass.opts.startBlock, seed, aseed);
      }
    }

    /** Scan from block `from` and, unless the process dies first, trim what retention allows. */
    method ScanAndRetain(pass: Pass, ghost chain: seq<Log>, from: int, ghost y: Trail, ghost seed: Tables,
                         ghost aseed: Table)
      requires PassOk(pass, chain, pass.opts.startBlock) && y.pieces != [] && from == y.scanned
      requires Follows(y, chain, seed, aseed) && TrailOk(y, chain, pass.opts.startBlock)
      requires from == CursorOr(y.cursor, pass.opts.startBlock) || LastPiece(y).hi == Upto(chain, from)
      modifies db, alerts
      ensures
        var r := ScanOf(y, pass, chain);
        var z := Scanned(y, pass, r);
        var pruned := Pruned(pass.opts.alertsKeep, pass.opts.deliveredUpTo);
        Follows(if r.died then z else z.(alertOps := z.alertOps + [pruned]),
                chain, seed, aseed)
    {
      ghost var r := ScanOf(y, pass, chain);
      ScanBounds(chain, from, SafeHead(pass), pass.opts.chunkSize, pass.opts.maxChunks, LastPiece(y).hi, pass.budget);
      var crashed := ScanOn(pass, chain, from, y, seed, aseed);
      if crashed {
        return;
      }
      Retain(pass, chain, Scanned(y, pass, r), seed, aseed);
    }

    method ScanOn(pass: Pass, ghost chain: seq<Log>, from: int, ghost y: Trail, ghost seed: Tables,
                  ghost aseed: Table) returns (crashed: bool)
      requires PassOk(pass, chain, pass.opts.startBlock) && y.pieces != [] && from == y.scanned
      requires Follows(y, chain, seed, aseed) && TrailOk(y, chain, pass.opts.startBlock)
      modifies db, alerts
      ensures Follows(Scanned(y, pass, ScanOf(y, pass, chain)), chain, seed, aseed)
      ensures crashed == ScanOf(y, pass, chain).died
    {
      BeginScan(Stored(), chain, y, seed, aseed);
      ghost var n := LastPiece(y).hi;
      OutcomeDecides(chain, SafeHead(pass), pass.opts.chunkSize);
      OutcomeIsScan(chain, from, SafeHead(pass), pass.opts.chunkSize, pass.opts.maxChunks, n, pass.budget);
      ghost var d;
      crashed, d := ScanChunks(pass.provider, chain, from, pass.provider.head - pass.opts.confirmations,
                               pass.opts.chunkSize, pass.opts.maxChunks, pass.budget, n, n,
                               HeldBy(y, chain, seed, aseed), Outcome(chain, SafeHead(pass), pass.opts.chunkSize));
      ScanBounds(chain, from, SafeHead(pass), pass.opts.chunkSize, pass.opts.maxChunks, n, pass.budget);
      KeepsScanned(Stored(), chain, y, pass, d, pass.opts.startBlock, seed, aseed);
    }

    /** Drop orphaned alerts and everything a replay will rebuild. */
    method ClearForRebuild(cursor: int)
      requires cursor > 0 && AlertsOk()
      modifies db`scores, db`receipts, db`identity, db`markers, alerts
      ensures db.Value() == Reset(old(db.Value())) && db.markers == map[]
      ensures alerts.Value() == DropFrom(old(alerts.Value()), cursor) && AlertsOk()
    {
      FilterValid(alerts.Value(), (r: Alert) => r.blockNumber < cursor);
      alerts.DeleteFromBlock(cursor);
      db.ResetIndexerDerived();
    }

    /** Retention at the end of a pass. */
    method Retain(pass: Pass, ghost chain: seq<Log>, ghost z: Trail, ghost seed: Tables, ghost aseed: Table)
      requires z.pieces != [] && Follows(z, chain, seed, aseed)
      requires z.cursor == Some(z.scanned) || z.scanned == pass.opts.startBlock - 1
      requires z.cursor.Some? && z.cursor.value != z.scanned ==> Upto(chain, z.scanned) == LastPiece(z).hi
      modifies db`markers, alerts
      ensures Follows(z.(alertOps := z.alertOps + [Pruned(pass.opts.alertsKeep, pass.opts.deliveredUpTo)]),
                      chain, seed, aseed)
      ensures var lastBlock := if db.lastBlock.Some? then db.lastBlock.value else pass.opts.startBlock;
        db.markers == RecentMarkers(old(db.markers), lastBlock, pass.opts.markerBlocks)
    {
      ghost var before := Stored();
      var deleted := alerts.PruneAlerts(pass.opts.alertsKeep, pass.opts.deliveredUpTo);
      var lastBlock := if db.lastBlock.Some? then db.lastBlock.value else pass.opts.startBlock;
      if pass.opts.markerBlocks > 0 {
        var dropped := db.PruneIndexedLogs(lastBlock, pass.opts.markerBlocks);
      }
      KeepsPruned(before, Stored(), chain, z, pass.opts, seed, aseed);
    }

    /** Any number of passes over one chain, each with its own head, chunking,
        confirmation depth, retention and point of death. */
    method RunSchedule(passes: seq<Pass>, ghost chain: seq<Log>, startBlock: nat, ghost x: Trail, ghost seed: Tables,
                       ghost aseed: Table)
      requires PassesOk(passes, chain, startBlock) && CanRun(x, passes)
      requires TrailOk(x, chain, startBlock) && Follows(x, chain, seed, aseed)
      modifies db, alerts
      ensures Follows(Run(x, passes, chain), chain, seed, aseed)
    {
      for i := 0 to |passes|
        invariant Follows(Run(x, passes[..i], chain), chain, seed, aseed)
      {
        assert passes[..i + 1][..i] == passes[..i];
        RunKeepsTrail(x, passes[..i], chain, startBlock);
        PollOnce(passes[i], chain, Run(x, passes[..i], chain), seed, aseed);
      }
      assert passes[..|passes|] == passes;
    }
  }

  /** Index a chain from nothing. */
  method IndexFromScratch(passes: seq<Pass>, ghost chain: seq<Log>, startBlock: nat)
    returns (indexer: LogIndexer)
    requires ChainOk(chain) && PassesOk(passes, chain, startBlock)
    ensures indexer.Follows(Run(Start(chain, startBlock), passes, chain), chain, NO_TABLES, Table([], 0))
  {
    var db := new Database();
    var alerts := new AlertTable();
    indexer := new LogIndexer(db, alerts);
    StartKeeps(chain, startBlock);
    StartOk(chain, startBlock);
    indexer.RunSchedule(passes, chain, startBlock, Start(chain, startBlock), NO_TABLES, Table([], 0));
  }
}
