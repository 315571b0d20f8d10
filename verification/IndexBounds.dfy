/** How far a pass and a schedule of passes come, in terms of the heads the node
    showed and the confirmations asked for, block by block. */
module IndexBounds {

  import opened Parties
  import opened Arithmetic
  import opened IndexDb
  import opened ChainLogs
  import opened IndexTrail

  /** One of the passes saw block `b` with the confirmations it asked for. */
  predicate Confirmed(passes: seq<Pass>, b: int)
  {
    exists i :: 0 <= i < |passes| && b <= passes[i].provider.head - passes[i].opts.confirmations
  }

  /** Where a pass starts from: over again if it sees a mismatch, otherwise at the stored cursor. */
  function StartsFrom(x: Trail, p: Pass): int
  {
    if Mismatch(x.cursor, x.hash, p.provider) || x.cursor.None? then p.opts.startBlock - 1 else x.cursor.value
  }

  lemma OneChunkMore(chunkSize: nat, chunks: nat)
    requires chunks > 0
    ensures chunkSize * chunks == chunkSize + chunkSize * (chunks - 1)
  {
  }

  lemma {:induction false} ScanEndsAt(chain: seq<Log>, from: int, safeHead: int, chunkSize: nat, chunks: nat, n: nat,
                                      budget: Option<nat>)
    requires ChainOk(chain) && chunkSize >= 1
    ensures
      var r := Scan(chain, from, safeHead, chunkSize, chunks, n, budget);
      && (from >= safeHead || chunks == 0 ==> r.block == from && r.n == n)
      && (from < safeHead ==> from <= r.block <= Min(safeHead, from + chunkSize * chunks))
      && (from < safeHead && chunks > 0 && budget.None? ==> r.block == Min(safeHead, from + chunkSize * chunks))
    decreases chunks
  {
    if from < safeHead && chunks > 0 {
      var to := Min(safeHead, from + chunkSize);
      var c := ScanChunk(chain, from, to, n, budget);
      OneChunkMore(chunkSize, chunks);
      Scale(0, chunks - 1, chunkSize);
      UptoMonotone(chain, from, to);
      if !c.died {
        ScanEndsAt(chain, to, safeHead, chunkSize, chunks - 1, c.n,
                   Spend(budget, Upto(chain, to) - Upto(chain, from) + 2));
      }
    }
  }

  lemma BeginFrom(x: Trail, p: Pass, chain: seq<Log>, startBlock: nat)
    requires TrailOk(x, chain, startBlock) && CanPoll(x, p) && p.opts.startBlock == startBlock
    ensures Begin(x, p, chain).scanned == StartsFrom(x, p) && Begin(x, p, chain).cursor == x.cursor
  {
  }

  /** A pass never stores a cursor beyond the head less the confirmations, nor beyond the chunks it
      may take; and one that does not die ends exactly where it must, if it has anything to do. */
  lemma PassEndsAt(x: Trail, p: Pass, chain: seq<Log>, startBlock: nat)
    requires TrailOk(x, chain, startBlock) && CanPoll(x, p) && p.opts.startBlock == startBlock && p.opts.chunkSize >= 1
    ensures
      var z, from := Poll(x, p, chain), StartsFrom(x, p);
      var end := Min(p.provider.head - p.opts.confirmations, from + p.opts.chunkSize * p.opts.maxChunks);
      && (z.cursor == x.cursor || (z.cursor.Some? && from < z.cursor.value <= end))
      && (p.budget.None? ==> z.cursor == if from < end then Some(end) else x.cursor)
  {
    BeginFrom(x, p, chain, startBlock);
    var y := Begin(x, p, chain);
    ScanEndsAt(chain, y.scanned, SafeHead(p), p.opts.chunkSize, p.opts.maxChunks, LastPiece(y).hi, p.budget);
    if p.opts.maxChunks > 0 {
      Scale(1, p.opts.maxChunks, p.opts.chunkSize);
    }
  }

  // ---- the logs ----

  predicate LogConfirmed(chain: seq<Log>, k: nat, startBlock: nat, passes: seq<Pass>)
  {
    k < |chain| && startBlock <= chain[k].block && Confirmed(passes, chain[k].block)
  }

  /** Logs `lo` to `hi` lie from the start block on and were all confirmed. */
  predicate LogsConfirmed(chain: seq<Log>, lo: nat, hi: nat, startBlock: nat, passes: seq<Pass>)
  {
    forall k: nat :: lo <= k < hi ==> LogConfirmed(chain, k, startBlock, passes)
  }

  ghost predicate PiecesConfirmed(pieces: seq<Piece>, chain: seq<Log>, startBlock: nat, passes: seq<Pass>)
  {
    forall i :: 0 <= i < |pieces| ==> LogsConfirmed(chain, pieces[i].lo, pieces[i].hi, startBlock, passes)
  }

  lemma ConfirmedStill(passes: seq<Pass>, p: Pass, b: int)
    ensures Confirmed(passes, b) ==> Confirmed(passes + [p], b)
    ensures b <= p.provider.head - p.opts.confirmations ==> Confirmed(passes + [p], b)
  {
    assert (passes + [p])[|passes|] == p;
    if Confirmed(passes, b) {
      var i :| 0 <= i < |passes| && b <= passes[i].provider.head - passes[i].opts.confirmations;
      assert (passes + [p])[i] == passes[i];
    }
  }

  /** The logs a scan adds are those of blocks it may look at. */
  lemma ScanAdds(y: Trail, p: Pass, chain: seq<Log>, startBlock: nat, k: nat)
    requires y.pieces != [] && TrailOk(y, chain, startBlock) && p.opts.chunkSize >= 1
    requires LastPiece(y).hi <= k < ScanOf(y, p, chain).n
    ensures k < |chain| && startBlock <= chain[k].block <= p.provider.head - p.opts.confirmations
  {
    ScanBounds(chain, y.scanned, SafeHead(p), p.opts.chunkSize, p.opts.maxChunks, LastPiece(y).hi, p.budget);
    ScanEndsAt(chain, y.scanned, SafeHead(p), p.opts.chunkSize, p.opts.maxChunks, LastPiece(y).hi, p.budget);
    UptoSplits(chain, SafeHead(p), k);
    UptoSplits(chain, startBlock - 1, k);
  }

  lemma ScanConfirmed(y: Trail, p: Pass, chain: seq<Log>, startBlock: nat, passes: seq<Pass>)
    requires y.pieces != [] && TrailOk(y, chain, startBlock) && p.opts.chunkSize >= 1
    requires PiecesConfirmed(y.pieces, chain, startBlock, passes)
    ensures PiecesConfirmed(Scanned(y, p, ScanOf(y, p, chain)).pieces, chain, startBlock, passes + [p])
  {
    var pieces := Scanned(y, p, ScanOf(y, p, chain)).pieces;
    forall i | 0 <= i < |pieces|
      ensures LogsConfirmed(chain, pieces[i].lo, pieces[i].hi, startBlock, passes + [p])
    {
      assert LogsConfirmed(chain, y.pieces[i].lo, y.pieces[i].hi, startBlock, passes);
      forall k: nat | pieces[i].lo <= k < pieces[i].hi
        ensures LogConfirmed(chain, k, startBlock, passes + [p])
      {
        if k < y.pieces[i].hi {
          assert LogConfirmed(chain, k, startBlock, passes);
        } else {
          ScanAdds(y, p, chain, startBlock, k);
        }
        ConfirmedStill(passes, p, chain[k].block);
      }
    }
  }

  /** In any schedule, whatever dies and is wiped, the cursor and every log that ever went into the
      tables lie between the start block and a block that some pass saw confirmed. */
  lemma {:induction false} RunWithinHeads(passes: seq<Pass>, chain: seq<Log>, startBlock: nat)
    requires ChainOk(chain) && PassesOk(passes, chain, startBlock)
    ensures
      var z := Run(Start(chain, startBlock), passes, chain);
      && (z.cursor.Some? ==> startBlock - 1 <= z.cursor.value && Confirmed(passes, z.cursor.value))
      && PiecesConfirmed(z.pieces, chain, startBlock, passes)
  {
    StartOk(chain, startBlock);
    RunKeepsTrail(Start(chain, startBlock), passes, chain, startBlock);
    if passes != [] {
      var k := |passes| - 1;
      RunWithinHeads(passes[..k], chain, startBlock);
      assert PassOk(passes[k], chain, startBlock) && passes[..k] + [passes[k]] == passes;
      RunKeepsTrail(Start(chain, startBlock), passes[..k], chain, startBlock);
      OnePassWithin(Run(Start(chain, startBlock), passes[..k], chain), passes[k], chain, startBlock, passes[..k]);
    }
  }

  lemma OnePassWithin(x: Trail, p: Pass, chain: seq<Log>, startBlock: nat, passes: seq<Pass>)
    requires TrailOk(x, chain, startBlock) && CanPoll(x, p) && PassOk(p, chain, startBlock)
    requires x.cursor.Some? ==> Confirmed(passes, x.cursor.value)
    requires PiecesConfirmed(x.pieces, chain, startBlock, passes)
    ensures
      var z := Poll(x, p, chain);
      && (z.cursor.Some? ==> Confirmed(passes + [p], z.cursor.value))
      && PiecesConfirmed(z.pieces, chain, startBlock, passes + [p])
  {
    PassEndsAt(x, p, chain, startBlock);
    var z := Poll(x, p, chain);
    if z.cursor.Some? {
      ConfirmedStill(passes, p, z.cursor.value);
    }
    BeginKeepsTrail(x, p, chain, startBlock);
    ScanConfirmed(Begin(x, p, chain), p, chain, startBlock, passes);
  }

  /** A pass that does not die leaves no log out between where it starts and where it ends: all
      up to its end are in the tables, as far back as the last piece goes. */
  lemma PassLeavesNothingOut(x: Trail, p: Pass, chain: seq<Log>, startBlock: nat, k: nat)
    requires TrailOk(x, chain, startBlock) && CanPoll(x, p) && p.opts.startBlock == startBlock && p.opts.chunkSize >= 1
    requires p.budget.None? && k < |chain| && StartsFrom(x, p) < chain[k].block
    requires chain[k].block <= p.provider.head - p.opts.confirmations
    requires chain[k].block <= StartsFrom(x, p) + p.opts.chunkSize * p.opts.maxChunks
    ensures var last := LastPiece(Poll(x, p, chain)); last.lo <= k < last.hi
  {
    BeginFrom(x, p, chain, startBlock);
    BeginKeepsTrail(x, p, chain, startBlock);
    var y := Begin(x, p, chain);
    ScanBounds(chain, y.scanned, SafeHead(p), p.opts.chunkSize, p.opts.maxChunks, LastPiece(y).hi, p.budget);
    ScanEndsAt(chain, y.scanned, SafeHead(p), p.opts.chunkSize, p.opts.maxChunks, LastPiece(y).hi, p.budget);
    UptoSplits(chain, y.scanned, k);
    UptoSplits(chain, ScanOf(y, p, chain).block, k);
  }
}
