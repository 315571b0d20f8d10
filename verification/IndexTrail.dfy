/** The log indexer's position as a value: the stored cursor and hash, and which
    stretches of the chain have gone into its tables and its alerts. One pass is
    a function of it, wherever the process dies; the methods of `Indexer` are
    proved to follow that function. Passes here run one after the other; passes in
    flight together are the business of `Overlap`, and `OverlapSerial` shows that
    its runs without overlap are the schedules of this module. */
module IndexTrail {

  import opened Parties
  import opened Arithmetic
  import opened Alerts
  import opened IndexDb
  import opened ChainLogs

  datatype PollOptions = PollOptions(startBlock: nat, chunkSize: nat, confirmations: nat, maxChunks: nat,
                                     alertsKeep: int, markerBlocks: int, deliveredUpTo: int)

  /** One scheduled pass: the node as it was, the settings, and after how many
      steps the process dies or a node call fails, if that happens. Each log of a
      range, each cursor write and each hash write is one step. */
  datatype Pass = Pass(provider: Provider, opts: PollOptions, budget: Option<nat>)

  /** Logs `lo` to `hi` of the chain, applied in order; `wiped` when a reset came first. */
  datatype Piece = Piece(wiped: bool, lo: nat, hi: nat)

  /** What has happened to the alert table: alerts of logs `lo` to `hi` raised,
      alerts of orphaned blocks dropped, old alerts pruned. */
  datatype AlertOp = Raised(lo: nat, hi: nat) | Dropped(fromBlock: nat) | Pruned(keep: int, upTo: int)

  /** `scanned` is the block a scan over these tables can resume after; it is
      behind the stored cursor while a rebuild has not stored one of its own. */
  datatype Trail = Trail(cursor: Option<int>, hash: nat, scanned: int, pieces: seq<Piece>, alertOps: seq<AlertOp>)

  /** Where the next scan starts from, given the stored cursor. */
  function CursorOr(lastBlock: Option<int>, startBlock: nat): int
  {
    if lastBlock.Some? then lastBlock.value else startBlock - 1
  }

  /** Logs before the start block. */
  function Base(chain: seq<Log>, startBlock: nat): nat
  {
    Upto(chain, startBlock - 1)
  }

  function SafeHead(p: Pass): int
  {
    p.provider.head - p.opts.confirmations
  }

  function MaxPos(a: nat, b: nat): nat { if a >= b then a else b }

  // ---- what a trail says of the tables ----

  function Cut(logs: seq<Log>, lo: nat, hi: nat): seq<Log>
  {
    if lo <= hi <= |logs| then logs[lo..hi] else []
  }

  /** The tables that the last piece was applied to. */
  function SeedOf(seed: Tables, chain: seq<Log>, pieces: seq<Piece>): Tables
    requires pieces != []
    decreases |pieces|, 0
  {
    var before := Replay(seed, chain, pieces[..|pieces| - 1]);
    if pieces[|pieces| - 1].wiped then Reset(before) else before
  }

  /** The tables after these pieces. */
  function Replay(seed: Tables, chain: seq<Log>, pieces: seq<Piece>): Tables
    decreases |pieces|, 1
  {
    if pieces == [] then seed
    else
      var last := pieces[|pieces| - 1];
      Fold(SeedOf(seed, chain, pieces), Cut(chain, last.lo, last.hi))
  }

  function ApplyAlertOp(t: Table, chain: seq<Log>, op: AlertOp): Table
  {
    match op
    case Raised(lo, hi) => FoldAlerts(t, Cut(chain, lo, hi))
    case Dropped(fromBlock) => DropFrom(t, fromBlock)
    case Pruned(keep, upTo) => Prune(t, keep, upTo)
  }

  /** The alerts after these operations. */
  function ReplayAlerts(t: Table, chain: seq<Log>, ops: seq<AlertOp>): Table
  {
    if ops == [] then t
    else ApplyAlertOp(ReplayAlerts(t, chain, ops[..|ops| - 1]), chain, ops[|ops| - 1])
  }

  // ---- one pass ----

  /** The block last indexed no longer has the hash it had, as far as the node can say. */
  predicate Mismatch(cursor: Option<int>, hash: nat, provider: Provider)
  {
    && cursor.Some? && cursor.value > 0
    && hash != 0 && provider.hashAt(cursor.value) != 0
    && hash != provider.hashAt(cursor.value)
  }

  /** How far a scan came: the last stored cursor, the last block whose hash was
      stored, the position of the next log, and whether it was cut short. */
  datatype Reach = Reach(block: int, hashed: Option<int>, n: nat, died: bool)

  /** One chunk: the logs come first, then the cursor write, then the hash write. */
  function ScanChunk(chain: seq<Log>, from: int, to: int, n: nat, budget: Option<nat>): Reach
  {
    var logs := Upto(chain, to) - Upto(chain, from);
    if budget.Some? && budget.value <= logs then
      Reach(from, None, MaxPos(n, Upto(chain, from) + budget.value), true)
    else if budget.Some? && budget.value == logs + 1 then
      Reach(to, None, MaxPos(n, Upto(chain, to)), true)
    else
      Reach(to, Some(to), MaxPos(n, Upto(chain, to)), false)
  }

  /** A chunk whose logs are all applied, with `left` steps to go. */
  function FinishChunk(from: int, to: int, n: nat, left: Option<nat>): Reach
  {
    if left == Some(0) then Reach(from, None, n, true)
    else if left == Some(1) then Reach(to, None, n, true)
    else Reach(to, Some(to), n, false)
  }

  lemma ChunkFinishes(chain: seq<Log>, from: int, to: int, n: nat, budget: Option<nat>)
    requires Upto(chain, from) <= Upto(chain, to)
    ensures
      var logs := Upto(chain, to) - Upto(chain, from);
      && (budget.Some? && budget.value < logs ==>
            ScanChunk(chain, from, to, n, budget)
            == Reach(from, None, MaxPos(n, Upto(chain, from) + budget.value), true))
      && (budget.None? || budget.value >= logs ==>
            && ScanChunk(chain, from, to, n, budget)
                 == FinishChunk(from, to, MaxPos(n, Upto(chain, to)), Spend(budget, logs))
            && Spend(Spend(budget, logs), 2) == Spend(budget, logs + 2))
  {
  }

  /** Chunk after chunk up to the safe head. */
  function Scan(chain: seq<Log>, from: int, safeHead: int, chunkSize: nat, chunks: nat, n: nat,
                budget: Option<nat>): Reach
    decreases chunks
  {
    if from >= safeHead || chunks == 0 then Reach(from, None, n, false)
    else
      var to := Min(safeHead, from + chunkSize);
      var c := ScanChunk(chain, from, to, n, budget);
      if c.died then c
      else
        var left := Spend(budget, Upto(chain, to) - Upto(chain, from) + 2);
        Hashed(Scan(chain, to, safeHead, chunkSize, chunks - 1, c.n, left), c.hashed)
  }

  /** What a scan that has come as far as `d` comes to in the end. */
  function Continue(chain: seq<Log>, d: Reach, safeHead: int, chunkSize: nat, chunks: nat, budget: Option<nat>): Reach
  {
    if d.died then d else Hashed(Scan(chain, d.block, safeHead, chunkSize, chunks, d.n, budget), d.hashed)
  }

  /** One chunk further. */
  lemma ContinueStep(chain: seq<Log>, d: Reach, d': Reach, safeHead: int, chunkSize: nat, chunks: nat,
                     budget: Option<nat>, left: Option<nat>)
    requires OneChunk(chain, safeHead, chunkSize, d, d', budget, left)
    ensures Continue(chain, d', safeHead, chunkSize, chunks, left)
         == Continue(chain, d, safeHead, chunkSize, chunks + 1, budget)
  {
  }

  /** The scan goes from `d` to `d'` by one chunk. */
  predicate OneChunk(chain: seq<Log>, safeHead: int, chunkSize: nat, d: Reach, d': Reach, budget: Option<nat>,
                     left: Option<nat>)
  {
    && !d.died && d.block < safeHead
    && d' == Hashed(ScanChunk(chain, d.block, Min(safeHead, d.block + chunkSize), d.n, budget), d.hashed)
    && (!d'.died ==> left == Spend(budget, Upto(chain, d'.block) - Upto(chain, d.block) + 2))
  }

  /** What becomes of a scan, from how far it has come, the chunks it may still take and the steps left. */
  function Outcome(chain: seq<Log>, safeHead: int, chunkSize: nat): (Reach, nat, Option<nat>) -> Reach
  {
    (d: Reach, chunks: nat, left: Option<nat>) => Continue(chain, d, safeHead, chunkSize, chunks, left)
  }

  /** A chunk leaves the outcome as it is, and a scan that stops has reached it. */
  ghost predicate Decides(outcome: (Reach, nat, Option<nat>) -> Reach, chain: seq<Log>, safeHead: int, chunkSize: nat)
  {
    && (forall d, d', chunks: nat, budget, left
          {:trigger OneChunk(chain, safeHead, chunkSize, d, d', budget, left), outcome(d', chunks, left)} ::
          OneChunk(chain, safeHead, chunkSize, d, d', budget, left) ==>
            outcome(d', chunks, left) == outcome(d, chunks + 1, budget))
    && (forall d: Reach, chunks: nat, left {:trigger outcome(d, chunks, left)} ::
          d.died || d.block >= safeHead || chunks == 0 ==> outcome(d, chunks, left) == d)
  }

  lemma OutcomeDecides(chain: seq<Log>, safeHead: int, chunkSize: nat)
    ensures Decides(Outcome(chain, safeHead, chunkSize), chain, safeHead, chunkSize)
  {
    var outcome := Outcome(chain, safeHead, chunkSize);
    forall d: Reach, d': Reach, chunks: nat, budget: Option<nat>, left: Option<nat>
      | OneChunk(chain, safeHead, chunkSize, d, d', budget, left)
      ensures outcome(d', chunks, left) == outcome(d, chunks + 1, budget)
    {
      ContinueStep(chain, d, d', safeHead, chunkSize, chunks, budget, left);
    }
  }

  lemma OutcomeIsScan(chain: seq<Log>, from: int, safeHead: int, chunkSize: nat, chunks: nat, n: nat,
                      budget: Option<nat>)
    ensures Outcome(chain, safeHead, chunkSize)(Reach(from, None, n, false), chunks, budget)
         == Scan(chain, from, safeHead, chunkSize, chunks, n, budget)
  {
  }

  function Spend(budget: Option<nat>, steps: int): Option<nat>
  {
    if budget.Some? && budget.value >= steps >= 0 then Some(budget.value - steps) else None
  }

  function Hashed(r: Reach, before: Option<int>): Reach
  {
    r.(hashed := if r.hashed.Some? then r.hashed else before)
  }

  function LastPiece(x: Trail): Piece
    requires x.pieces != []
  {
    x.pieces[|x.pieces| - 1]
  }

  /** A pass that sees a mismatch clears the derived tables and starts over. */
  function Rebuild(x: Trail, chain: seq<Log>, startBlock: nat): Trail
    requires x.cursor.Some? && x.cursor.value > 0
  {
    var base := Base(chain, startBlock);
    x.(scanned := startBlock - 1, pieces := x.pieces + [Piece(true, base, base)],
       alertOps := x.alertOps + [Dropped(x.cursor.value)])
  }

  /** A pass that sees none goes on from the stored cursor. If a rebuild died before
      it stored one, the logs between it and the old cursor are passed over. */
  function Resume(x: Trail, chain: seq<Log>, startBlock: nat): Trail
    requires x.pieces != []
  {
    var from := CursorOr(x.cursor, startBlock);
    if LastPiece(x).hi >= Upto(chain, from) then x.(scanned := from)
    else x.(scanned := from, pieces := x.pieces + [Piece(false, Upto(chain, from), Upto(chain, from))])
  }

  predicate CanPoll(x: Trail, p: Pass)
  {
    x.pieces != [] || Mismatch(x.cursor, x.hash, p.provider)
  }

  /** The trail a pass scans from. */
  function Begin(x: Trail, p: Pass, chain: seq<Log>): (y: Trail)
    requires CanPoll(x, p)
    ensures y.pieces != []
  {
    if Mismatch(x.cursor, x.hash, p.provider) then Rebuild(x, chain, p.opts.startBlock)
    else Resume(x, chain, p.opts.startBlock)
  }

  function ScanOf(y: Trail, p: Pass, chain: seq<Log>): Reach
    requires y.pieces != []
  {
    Scan(chain, y.scanned, SafeHead(p), p.opts.chunkSize, p.opts.maxChunks, LastPiece(y).hi, p.budget)
  }

  /** The trail after a scan that came this far. */
  function Scanned(y: Trail, p: Pass, r: Reach): Trail
    requires y.pieces != []
  {
    Trail(
      if r.block == y.scanned then y.cursor else Some(r.block),
      if r.hashed.Some? then p.provider.hashAt(r.hashed.value) else y.hash,
      r.block,
      y.pieces[|y.pieces| - 1 := LastPiece(y).(hi := r.n)],
      y.alertOps + [Raised(LastPiece(y).hi, r.n)])
  }

  /** One pass. Retention runs only at the end of a pass that gets there. */
  function Poll(x: Trail, p: Pass, chain: seq<Log>): (z: Trail)
    requires CanPoll(x, p)
    ensures z.pieces != []
  {
    var y := Begin(x, p, chain);
    var r := ScanOf(y, p, chain);
    var z := Scanned(y, p, r);
    if r.died then z else z.(alertOps := z.alertOps + [Pruned(p.opts.alertsKeep, p.opts.deliveredUpTo)])
  }

  predicate CanRun(x: Trail, passes: seq<Pass>)
  {
    passes == [] || CanPoll(x, passes[0])
  }

  /** Passes one after the other. */
  function Run(x: Trail, passes: seq<Pass>, chain: seq<Log>): (z: Trail)
    requires CanRun(x, passes)
    ensures if passes == [] then z == x else z.pieces != []
  {
    if passes == [] then x
    else Poll(Run(x, passes[..|passes| - 1], chain), passes[|passes| - 1], chain)
  }

  /** The node is right about the safe part of the chain. */
  ghost predicate PassOk(p: Pass, chain: seq<Log>, startBlock: nat)
  {
    p.opts.startBlock == startBlock && p.opts.chunkSize >= 1 && Serves(p.provider, chain, SafeHead(p))
  }

  ghost predicate PassesOk(passes: seq<Pass>, chain: seq<Log>, startBlock: nat)
  {
    forall i :: 0 <= i < |passes| ==> PassOk(passes[i], chain, startBlock)
  }

  // ---- what every pass keeps ----

  /** The resume point is the stored cursor, or the start of a rebuild under way. */
  ghost predicate TrailOk(x: Trail, chain: seq<Log>, startBlock: nat)
  {
    && ChainOk(chain)
    && (x.cursor.Some? ==> startBlock - 1 <= x.cursor.value)
    && (x.pieces != [] ==>
          && (x.scanned == CursorOr(x.cursor, startBlock) || x.scanned == startBlock - 1)
          && Base(chain, startBlock) <= LastPiece(x).lo <= Upto(chain, x.scanned) <= LastPiece(x).hi <= |chain|)
  }

  lemma {:induction false} ScanBounds(chain: seq<Log>, from: int, safeHead: int, chunkSize: nat, chunks: nat, n: nat,
                                      budget: Option<nat>)
    requires ChainOk(chain) && chunkSize >= 1 && Upto(chain, from) <= n <= |chain|
    ensures var r := Scan(chain, from, safeHead, chunkSize, chunks, n, budget);
      && from <= r.block <= Max(from, safeHead)
      && Upto(chain, r.block) <= r.n && n <= r.n <= MaxPos(n, Upto(chain, Max(from, safeHead)))
      && (!r.died ==> r.n == MaxPos(n, Upto(chain, r.block)))
      && (r.hashed.Some? ==> from < r.hashed.value <= r.block)
      && (!r.died ==> r.block == from || r.hashed == Some(r.block))
      && (budget.None? ==> !r.died)
    decreases chunks
  {
    if from < safeHead && chunks > 0 {
      var to := Min(safeHead, from + chunkSize);
      UptoMonotone(chain, from, to);
      UptoMonotone(chain, to, safeHead);
      var logs := Upto(chain, to) - Upto(chain, from);
      if budget.None? || budget.value > logs + 1 {
        var n1, left := MaxPos(n, Upto(chain, to)), Spend(budget, logs + 2);
        ScanBounds(chain, to, safeHead, chunkSize, chunks - 1, n1, left);
        UptoMonotone(chain, to, Scan(chain, to, safeHead, chunkSize, chunks - 1, n1, left).block);
      }
    }
  }

  lemma BeginKeepsTrail(x: Trail, p: Pass, chain: seq<Log>, startBlock: nat)
    requires TrailOk(x, chain, startBlock) && CanPoll(x, p) && p.opts.startBlock == startBlock
    ensures TrailOk(Begin(x, p, chain), chain, startBlock)
  {
    if !Mismatch(x.cursor, x.hash, p.provider) {
      var from := CursorOr(x.cursor, startBlock);
      UptoMonotone(chain, x.scanned, from);
    }
  }

  lemma PollKeepsTrail(x: Trail, p: Pass, chain: seq<Log>, startBlock: nat)
    requires TrailOk(x, chain, startBlock) && CanPoll(x, p) && p.opts.startBlock == startBlock && p.opts.chunkSize >= 1
    ensures TrailOk(Poll(x, p, chain), chain, startBlock)
  {
    BeginKeepsTrail(x, p, chain, startBlock);
    var y := Begin(x, p, chain);
    ScanBounds(chain, y.scanned, SafeHead(p), p.opts.chunkSize, p.opts.maxChunks, LastPiece(y).hi, p.budget);
    UptoMonotone(chain, y.scanned, ScanOf(y, p, chain).block);
  }

  lemma {:induction false} RunKeepsTrail(x: Trail, passes: seq<Pass>, chain: seq<Log>, startBlock: nat)
    requires TrailOk(x, chain, startBlock) && PassesOk(passes, chain, startBlock) && CanRun(x, passes)
    ensures TrailOk(Run(x, passes, chain), chain, startBlock)
  {
    if passes != [] {
      var k := |passes| - 1;
      assert PassOk(passes[k], chain, startBlock);
      RunKeepsTrail(x, passes[..k], chain, startBlock);
      PollKeepsTrail(Run(x, passes[..k], chain), passes[k], chain, startBlock);
    }
  }

  /** Pieces lie on the chain from the start block on, and a piece that follows no
      reset begins beyond it. */
  ghost predicate PiecesOk(pieces: seq<Piece>, chain: seq<Log>, startBlock: nat)
  {
    && (forall i :: 0 <= i < |pieces| ==> Base(chain, startBlock) <= pieces[i].lo <= pieces[i].hi <= |chain|)
    && (forall i :: 0 <= i < |pieces| && pieces[i].wiped ==> pieces[i].lo == Base(chain, startBlock))
    && (forall i :: 0 < i < |pieces| && !pieces[i].wiped ==> pieces[i].lo > Base(chain, startBlock))
  }

  lemma BeginKeepsPieces(x: Trail, p: Pass, chain: seq<Log>, startBlock: nat)
    requires TrailOk(x, chain, startBlock) && CanPoll(x, p) && p.opts.startBlock == startBlock
    requires PiecesOk(x.pieces, chain, startBlock)
    ensures PiecesOk(Begin(x, p, chain).pieces, chain, startBlock)
  {
    if Mismatch(x.cursor, x.hash, p.provider) {
      var base := Base(chain, startBlock);
      OnePieceMore(x.pieces, Piece(true, base, base), chain, startBlock);
    } else {
      var from := Upto(chain, CursorOr(x.cursor, startBlock));
      if LastPiece(x).hi < from {
        OnePieceMore(x.pieces, Piece(false, from, from), chain, startBlock);
      }
    }
  }

  lemma OnePieceMore(pieces: seq<Piece>, p: Piece, chain: seq<Log>, startBlock: nat)
    requires PiecesOk(pieces, chain, startBlock)
    requires Base(chain, startBlock) <= p.lo <= p.hi <= |chain|
    requires if p.wiped then p.lo == Base(chain, startBlock) else p.lo > Base(chain, startBlock)
    ensures PiecesOk(pieces + [p], chain, startBlock)
  {
  }

  lemma LastPieceLonger(pieces: seq<Piece>, hi: nat, chain: seq<Log>, startBlock: nat)
    requires pieces != [] && PiecesOk(pieces, chain, startBlock)
    requires pieces[|pieces| - 1].lo <= hi <= |chain|
    ensures PiecesOk(pieces[|pieces| - 1 := pieces[|pieces| - 1].(hi := hi)], chain, startBlock)
  {
  }

  lemma PollKeepsPieces(x: Trail, p: Pass, chain: seq<Log>, startBlock: nat)
    requires TrailOk(x, chain, startBlock) && CanPoll(x, p) && p.opts.startBlock == startBlock && p.opts.chunkSize >= 1
    requires PiecesOk(x.pieces, chain, startBlock)
    ensures PiecesOk(Poll(x, p, chain).pieces, chain, startBlock)
  {
    BeginKeepsTrail(x, p, chain, startBlock);
    BeginKeepsPieces(x, p, chain, startBlock);
    var y := Begin(x, p, chain);
    ScanBounds(chain, y.scanned, SafeHead(p), p.opts.chunkSize, p.opts.maxChunks, LastPiece(y).hi, p.budget);
    LastPieceLonger(y.pieces, ScanOf(y, p, chain).n, chain, startBlock);
  }

  lemma {:induction false} RunKeepsPieces(x: Trail, passes: seq<Pass>, chain: seq<Log>, startBlock: nat)
    requires TrailOk(x, chain, startBlock) && PassesOk(passes, chain, startBlock) && CanRun(x, passes)
    requires PiecesOk(x.pieces, chain, startBlock)
    ensures PiecesOk(Run(x, passes, chain).pieces, chain, startBlock)
  {
    if passes != [] {
      var k := |passes| - 1;
      assert PassOk(passes[k], chain, startBlock);
      RunKeepsPieces(x, passes[..k], chain, startBlock);
      RunKeepsTrail(x, passes[..k], chain, startBlock);
      PollKeepsPieces(Run(x, passes[..k], chain), passes[k], chain, startBlock);
    }
  }

  /** A chain not looked at yet. */
  function Start(chain: seq<Log>, startBlock: nat): Trail
  {
    Trail(None, 0, startBlock - 1, [Piece(false, Base(chain, startBlock), Base(chain, startBlock))], [])
  }

  lemma StartOk(chain: seq<Log>, startBlock: nat)
    requires ChainOk(chain)
    ensures TrailOk(Start(chain, startBlock), chain, startBlock)
  {
  }
}
