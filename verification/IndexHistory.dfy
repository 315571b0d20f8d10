/** Whole schedules of indexing passes, one after the other: when the index is one fold of the chain,
    when a pass wipes it although the chain never forked, when logs are passed
    over for good. */
module IndexHistory {

  import opened Parties
  import opened Arithmetic
  import opened IndexDb
  import opened ChainLogs
  import opened IndexTrail

  // ---- how far a schedule gets ----

  /** The largest safe head any pass saw, or `from` if none went beyond it. */
  function MaxSafe(passes: seq<Pass>, from: int): (m: int)
    ensures from <= m
  {
    if passes == [] then from
    else Max(MaxSafe(passes[..|passes| - 1], from), SafeHead(passes[|passes| - 1]))
  }

  function Applied(x: Trail): nat
  {
    if x.pieces == [] then 0 else LastPiece(x).hi
  }

  /** What a pass starts from is no further on than what it found. */
  lemma BeginBounds(x: Trail, p: Pass, chain: seq<Log>, startBlock: nat)
    requires TrailOk(x, chain, startBlock) && CanPoll(x, p) && p.opts.startBlock == startBlock
    ensures
      var y, from := Begin(x, p, chain), CursorOr(x.cursor, startBlock);
      && y.cursor == x.cursor && (y.scanned == from || y.scanned == startBlock - 1)
      && Applied(y) <= MaxPos(Applied(x), Upto(chain, from))
  {
    UptoMonotone(chain, startBlock - 1, CursorOr(x.cursor, startBlock));
  }

  /** A pass leaves the cursor at most at its safe head or where it was, and
      applies nothing beyond that. */
  lemma PollBounds(x: Trail, p: Pass, chain: seq<Log>, startBlock: nat)
    requires TrailOk(x, chain, startBlock) && CanPoll(x, p) && p.opts.startBlock == startBlock && p.opts.chunkSize >= 1
    ensures
      var z := Poll(x, p, chain);
      var reach := Max(CursorOr(x.cursor, startBlock), SafeHead(p));
      && z.scanned <= CursorOr(z.cursor, startBlock) <= reach
      && Applied(z) <= MaxPos(Applied(x), Upto(chain, reach))
  {
    BeginKeepsTrail(x, p, chain, startBlock);
    BeginBounds(x, p, chain, startBlock);
    var y := Begin(x, p, chain);
    var from, reach := CursorOr(x.cursor, startBlock), Max(CursorOr(x.cursor, startBlock), SafeHead(p));
    ScanBounds(chain, y.scanned, SafeHead(p), p.opts.chunkSize, p.opts.maxChunks, LastPiece(y).hi, p.budget);
    UptoMonotone(chain, from, reach);
    UptoMonotone(chain, Max(y.scanned, SafeHead(p)), reach);
  }

  /** Over a whole schedule, rebuilds included, the cursor never passes the largest
      safe head and nothing beyond that head is applied. */
  lemma {:induction false} RunBounds(x: Trail, passes: seq<Pass>, chain: seq<Log>, startBlock: nat)
    requires TrailOk(x, chain, startBlock) && PassesOk(passes, chain, startBlock) && CanRun(x, passes)
    ensures
      var z := Run(x, passes, chain);
      var reach := MaxSafe(passes, CursorOr(x.cursor, startBlock));
      CursorOr(z.cursor, startBlock) <= reach && Applied(z) <= MaxPos(Applied(x), Upto(chain, reach))
  {
    if passes != [] {
      var k := |passes| - 1;
      assert PassOk(passes[k], chain, startBlock);
      RunBounds(x, passes[..k], chain, startBlock);
      RunKeepsTrail(x, passes[..k], chain, startBlock);
      var y := Run(x, passes[..k], chain);
      PollBounds(y, passes[k], chain, startBlock);
      UptoMonotone(chain, MaxSafe(passes[..k], CursorOr(x.cursor, startBlock)),
                   MaxSafe(passes, CursorOr(x.cursor, startBlock)));
      UptoMonotone(chain, Max(CursorOr(y.cursor, startBlock), SafeHead(passes[k])),
                   MaxSafe(passes, CursorOr(x.cursor, startBlock)));
    }
  }

  /** Exactly the logs up to the resume point have been applied, from where the last piece begins. */
  predicate Settled(x: Trail, chain: seq<Log>)
  {
    x.pieces != [] ==> LastPiece(x).hi == Upto(chain, x.scanned)
  }

  predicate NoDeaths(passes: seq<Pass>)
  {
    forall i :: 0 <= i < |passes| ==> passes[i].budget.None?
  }

  lemma SurvivedPassSettles(x: Trail, p: Pass, chain: seq<Log>, startBlock: nat)
    requires TrailOk(x, chain, startBlock) && CanPoll(x, p) && p.opts.startBlock == startBlock && p.opts.chunkSize >= 1
    requires Settled(x, chain) && p.budget.None?
    ensures Settled(Poll(x, p, chain), chain)
  {
    BeginKeepsTrail(x, p, chain, startBlock);
    var y := Begin(x, p, chain);
    if !Mismatch(x.cursor, x.hash, p.provider) {
      UptoMonotone(chain, x.scanned, y.scanned);
    }
    ScanBounds(chain, y.scanned, SafeHead(p), p.opts.chunkSize, p.opts.maxChunks, LastPiece(y).hi, p.budget);
    UptoMonotone(chain, y.scanned, ScanOf(y, p, chain).block);
  }

  /** A schedule ends settled if none of its passes died, or if the cursor has
      caught up with the largest safe head. */
  lemma {:induction false} RunSettles(x: Trail, passes: seq<Pass>, chain: seq<Log>, startBlock: nat)
    requires TrailOk(x, chain, startBlock) && PassesOk(passes, chain, startBlock) && CanRun(x, passes)
    requires Settled(x, chain) && (x.pieces != [] ==> x.scanned == CursorOr(x.cursor, startBlock))
    ensures NoDeaths(passes) ==> Settled(Run(x, passes, chain), chain)
    ensures Run(x, passes, chain).scanned == MaxSafe(passes, CursorOr(x.cursor, startBlock)) ==>
              Settled(Run(x, passes, chain), chain)
  {
    RunBounds(x, passes, chain, startBlock);
    RunKeepsTrail(x, passes, chain, startBlock);
    UptoMonotone(chain, CursorOr(x.cursor, startBlock), MaxSafe(passes, CursorOr(x.cursor, startBlock)));
    if NoDeaths(passes) {
      NoDeathsSettle(x, passes, chain, startBlock);
    }
  }

  lemma {:induction false} NoDeathsSettle(x: Trail, passes: seq<Pass>, chain: seq<Log>, startBlock: nat)
    requires TrailOk(x, chain, startBlock) && PassesOk(passes, chain, startBlock) && CanRun(x, passes)
    requires Settled(x, chain) && NoDeaths(passes)
    ensures Settled(Run(x, passes, chain), chain)
  {
    if passes != [] {
      var k := |passes| - 1;
      assert PassOk(passes[k], chain, startBlock);
      NoDeathsSettle(x, passes[..k], chain, startBlock);
      RunKeepsTrail(x, passes[..k], chain, startBlock);
      SurvivedPassSettles(Run(x, passes[..k], chain), passes[k], chain, startBlock);
    }
  }

  // ---- rebuilds on a chain that never forked ----

  /** The stored hash is that of the cursor block, or missing. */
  ghost predicate HashOk(x: Trail, blockHash: int -> nat)
  {
    x.hash == 0 || (x.cursor.Some? && x.hash == blockHash(x.cursor.value))
  }

  /** The node never shows another hash for a block, though it may show none. */
  ghost predicate Honest(p: Provider, blockHash: int -> nat)
  {
    forall b :: p.hashAt(b) == 0 || p.hashAt(b) == blockHash(b)
  }

  ghost predicate DistinctHashes(blockHash: int -> nat)
  {
    forall b, c :: b != c ==> blockHash(b) != blockHash(c)
  }

  /** The pass was cut short between the cursor write and the hash write of a chunk. */
  predicate Torn(x: Trail, p: Pass, chain: seq<Log>)
    requires CanPoll(x, p)
  {
    var y := Begin(x, p, chain);
    var r := ScanOf(y, p, chain);
    r.block != y.scanned && r.hashed != Some(r.block)
  }

  /** A torn pass leaves the hash of an earlier block beside the cursor, any other the right one. */
  lemma PollHash(x: Trail, p: Pass, chain: seq<Log>, startBlock: nat, blockHash: int -> nat)
    requires x.pieces != [] && TrailOk(x, chain, startBlock) && p.opts.startBlock == startBlock && p.opts.chunkSize >= 1
    requires HashOk(x, blockHash) && Honest(p.provider, blockHash)
    ensures !Mismatch(x.cursor, x.hash, p.provider)
    ensures
      var z := Poll(x, p, chain);
      if Torn(x, p, chain) then
        z.cursor.Some? && (z.hash == 0 || exists b :: b < z.cursor.value && z.hash == blockHash(b))
      else HashOk(z, blockHash)
  {
    BeginKeepsTrail(x, p, chain, startBlock);
    var y := Begin(x, p, chain);
    ScanBounds(chain, y.scanned, SafeHead(p), p.opts.chunkSize, p.opts.maxChunks, LastPiece(y).hi, p.budget);
    var r := ScanOf(y, p, chain);
    if r.hashed.Some? {
      assert p.provider.hashAt(r.hashed.value) == 0 || p.provider.hashAt(r.hashed.value) == blockHash(r.hashed.value);
    }
  }

  /** Starting from a right hash, a pass wipes the index of an unforked chain if and only
      if the pass before it was torn, it had an earlier block's hash to leave behind, and the node can
      give the hash of the cursor block. */
  lemma FalseRebuildIff(x: Trail, p: Pass, q: Provider, chain: seq<Log>, startBlock: nat, blockHash: int -> nat)
    requires x.pieces != [] && TrailOk(x, chain, startBlock) && p.opts.startBlock == startBlock && p.opts.chunkSize >= 1
    requires HashOk(x, blockHash) && Honest(p.provider, blockHash) && Honest(q, blockHash) && DistinctHashes(blockHash)
    ensures
      var z := Poll(x, p, chain);
      Mismatch(z.cursor, z.hash, q)
      <==> Torn(x, p, chain) && z.cursor.value > 0 && z.hash != 0 && q.hashAt(z.cursor.value) != 0
  {
    PollHash(x, p, chain, startBlock, blockHash);
    var z := Poll(x, p, chain);
    if z.cursor.Some? {
      assert q.hashAt(z.cursor.value) == 0 || q.hashAt(z.cursor.value) == blockHash(z.cursor.value);
    }
  }

  /** The block of the last hash any of these passes has stored. */
  function HashedBlock(x: Trail, passes: seq<Pass>, chain: seq<Log>): Option<int>
    requires x.pieces != []
  {
    if passes == [] then None
    else
      var before, p := passes[..|passes| - 1], passes[|passes| - 1];
      var hashed := ScanOf(Begin(Run(x, before, chain), p, chain), p, chain).hashed;
      if hashed.Some? then hashed else HashedBlock(x, before, chain)
  }

  /** The node never shows another hash than the block's. */
  lemma HonestAt(p: Provider, blockHash: int -> nat, b: int)
    requires Honest(p, blockHash)
    ensures p.hashAt(b) == 0 || p.hashAt(b) == blockHash(b)
  {
  }

  lemma PollStoresHash(x: Trail, p: Pass, chain: seq<Log>)
    requires CanPoll(x, p)
    ensures var hashed := ScanOf(Begin(x, p, chain), p, chain).hashed;
      Poll(x, p, chain).hash == if hashed.Some? then p.provider.hashAt(hashed.value) else x.hash
  {
  }

  /** The stored hash is always that of the block it was stored for. */
  lemma {:induction false} HashIsOfHashedBlock(passes: seq<Pass>, chain: seq<Log>, startBlock: nat,
                                               blockHash: int -> nat)
    requires forall i :: 0 <= i < |passes| ==> Honest(passes[i].provider, blockHash)
    ensures
      var x := Start(chain, startBlock);
      var z, b := Run(x, passes, chain), HashedBlock(x, passes, chain);
      z.hash == 0 || (b.Some? && z.hash == blockHash(b.value))
  {
    if passes != [] {
      var n := |passes| - 1;
      var y := Run(Start(chain, startBlock), passes[..n], chain);
      HashIsOfHashedBlock(passes[..n], chain, startBlock, blockHash);
      PollStoresHash(y, passes[n], chain);
      var hashed := ScanOf(Begin(y, passes[n], chain), passes[n], chain).hashed;
      if hashed.Some? {
        HonestAt(passes[n].provider, blockHash, hashed.value);
      }
    }
  }

  /** After any schedule over a chain that never forked, whatever deaths, silent nodes and
      wipes it has seen, the next pass wipes the index if and only if a hash is stored, it
      is not the cursor block's own, and the node can give that block. */
  lemma {:induction false} WipesIff(passes: seq<Pass>, q: Provider, chain: seq<Log>, startBlock: nat,
                                    blockHash: int -> nat)
    requires forall i :: 0 <= i < |passes| ==> Honest(passes[i].provider, blockHash)
    requires Honest(q, blockHash) && DistinctHashes(blockHash)
    ensures
      var x := Start(chain, startBlock);
      var z := Run(x, passes, chain);
      Mismatch(z.cursor, z.hash, q)
      <==> z.cursor.Some? && z.cursor.value > 0 && z.hash != 0 && q.hashAt(z.cursor.value) != 0
           && HashedBlock(x, passes, chain) != z.cursor
  {
    var x := Start(chain, startBlock);
    var z := Run(x, passes, chain);
    HashIsOfHashedBlock(passes, chain, startBlock, blockHash);
    MismatchIff(z.cursor, z.hash, HashedBlock(x, passes, chain), q, blockHash);
  }

  /** An honest node contradicts a stored hash exactly when that is of another block than the cursor. */
  lemma MismatchIff(cursor: Option<int>, hash: nat, hashOf: Option<int>, q: Provider, blockHash: int -> nat)
    requires hash == 0 || (hashOf.Some? && hash == blockHash(hashOf.value))
    requires Honest(q, blockHash) && DistinctHashes(blockHash)
    ensures Mismatch(cursor, hash, q)
       <==> cursor.Some? && cursor.value > 0 && hash != 0 && q.hashAt(cursor.value) != 0 && hashOf != cursor
  {
    if cursor.Some? && hash != 0 {
      HonestAt(q, blockHash, cursor.value);
      assert hashOf.value != cursor.value ==> blockHash(hashOf.value) != blockHash(cursor.value);
    }
  }

  predicate NoTears(x: Trail, passes: seq<Pass>, chain: seq<Log>)
    requires x.pieces != []
  {
    forall k :: 0 <= k < |passes| ==> !TornAt(x, passes, k, chain)
  }

  predicate TornAt(x: Trail, passes: seq<Pass>, k: nat, chain: seq<Log>)
    requires x.pieces != [] && k < |passes|
  {
    Torn(Run(x, passes[..k], chain), passes[k], chain)
  }

  /** `z` has gone on from `x` with no reset and nothing passed over. */
  predicate Extends(x: Trail, z: Trail, startBlock: nat)
    requires x.pieces != [] && z.pieces != []
  {
    && z.pieces == x.pieces[|x.pieces| - 1 := LastPiece(x).(hi := LastPiece(z).hi)]
    && LastPiece(x).hi <= LastPiece(z).hi
    && CursorOr(x.cursor, startBlock) <= CursorOr(z.cursor, startBlock) == z.scanned
  }

  lemma UntornPoll(x: Trail, p: Pass, chain: seq<Log>, startBlock: nat)
    requires x.pieces != [] && TrailOk(x, chain, startBlock) && p.opts.startBlock == startBlock && p.opts.chunkSize >= 1
    requires x.scanned == CursorOr(x.cursor, startBlock) && !Mismatch(x.cursor, x.hash, p.provider)
    ensures Extends(x, Poll(x, p, chain), startBlock)
  {
    BeginKeepsTrail(x, p, chain, startBlock);
    var y := Begin(x, p, chain);
    ScanBounds(chain, y.scanned, SafeHead(p), p.opts.chunkSize, p.opts.maxChunks, LastPiece(y).hi, p.budget);
  }

  /** In a schedule without a torn pass an unforked chain is never wiped: the cursor only moves
      forward and the tables stay one fold. */
  lemma {:induction false} UntornRun(x: Trail, passes: seq<Pass>, chain: seq<Log>, startBlock: nat,
                                     blockHash: int -> nat)
    requires x.pieces != [] && TrailOk(x, chain, startBlock) && PassesOk(passes, chain, startBlock)
    requires x.scanned == CursorOr(x.cursor, startBlock) && HashOk(x, blockHash)
    requires forall i :: 0 <= i < |passes| ==> Honest(passes[i].provider, blockHash)
    requires NoTears(x, passes, chain)
    ensures Extends(x, Run(x, passes, chain), startBlock) && HashOk(Run(x, passes, chain), blockHash)
  {
    if passes != [] {
      var k := |passes| - 1;
      assert PassOk(passes[k], chain, startBlock) && !TornAt(x, passes, k, chain);
      NoTearsPrefix(x, passes, k, chain);
      UntornRun(x, passes[..k], chain, startBlock, blockHash);
      RunKeepsTrail(x, passes[..k], chain, startBlock);
      var y := Run(x, passes[..k], chain);
      PollHash(y, passes[k], chain, startBlock, blockHash);
      UntornPoll(y, passes[k], chain, startBlock);
      ExtendsTwice(x, y, Poll(y, passes[k], chain), startBlock);
    }
  }

  lemma NoTearsPrefix(x: Trail, passes: seq<Pass>, k: nat, chain: seq<Log>)
    requires x.pieces != [] && NoTears(x, passes, chain) && k <= |passes|
    ensures NoTears(x, passes[..k], chain)
  {
    forall j | 0 <= j < k
      ensures !TornAt(x, passes[..k], j, chain)
    {
      assert !TornAt(x, passes, j, chain);
      assert passes[..k][..j] == passes[..j];
    }
  }

  lemma ExtendsTwice(x: Trail, y: Trail, z: Trail, startBlock: nat)
    requires x.pieces != [] && y.pieces != [] && z.pieces != []
    requires Extends(x, y, startBlock) && Extends(y, z, startBlock)
    ensures Extends(x, z, startBlock)
  {
  }

  /** The tables and the cursor of an untorn schedule from scratch. */
  lemma {:induction false} UntornIsOneFold(passes: seq<Pass>, chain: seq<Log>, startBlock: nat, blockHash: int -> nat)
    requires ChainOk(chain) && PassesOk(passes, chain, startBlock)
    requires forall i :: 0 <= i < |passes| ==> Honest(passes[i].provider, blockHash)
    requires NoTears(Start(chain, startBlock), passes, chain)
    ensures
      var z := Run(Start(chain, startBlock), passes, chain);
      && z.scanned == CursorOr(z.cursor, startBlock)
      && startBlock - 1 <= z.scanned <= MaxSafe(passes, startBlock - 1)
      && Replay(NO_TABLES, chain, z.pieces) == Fold(NO_TABLES, Cut(chain, Base(chain, startBlock), LastPiece(z).hi))
      && (NoDeaths(passes) || z.scanned == MaxSafe(passes, startBlock - 1) ==>
            LastPiece(z).hi == Upto(chain, z.scanned))
  {
    var x := Start(chain, startBlock);
    StartOk(chain, startBlock);
    UntornRun(x, passes, chain, startBlock, blockHash);
    RunBounds(x, passes, chain, startBlock);
    RunSettles(x, passes, chain, startBlock);
    ReplayOne(NO_TABLES, chain, LastPiece(Run(x, passes, chain)));
  }

  lemma ReplayOne(seed: Tables, chain: seq<Log>, p: Piece)
    ensures Replay(seed, chain, [p]) == Fold(if p.wiped then Reset(seed) else seed, Cut(chain, p.lo, p.hi))
  {
    assert [p][..0] == [];
    assert Replay(seed, chain, []) == seed;
    assert SeedOf(seed, chain, [p]) == if p.wiped then Reset(seed) else seed;
  }

  // ---- logs passed over ----

  /** The last piece begins at the start block: no log since the last reset is missing. */
  predicate Whole(x: Trail, chain: seq<Log>, startBlock: nat)
    requires x.pieces != []
  {
    LastPiece(x).lo == Base(chain, startBlock)
  }

  /** This pass will pass logs over: no mismatch is seen, and there are logs up to
      the stored cursor that a rebuild has not come to. */
  predicate Loses(x: Trail, p: Pass, chain: seq<Log>)
    requires CanPoll(x, p)
  {
    && !Mismatch(x.cursor, x.hash, p.provider)
    && LastPiece(x).hi < Upto(chain, CursorOr(x.cursor, p.opts.startBlock))
  }

  lemma WholeStep(x: Trail, p: Pass, chain: seq<Log>, startBlock: nat)
    requires TrailOk(x, chain, startBlock) && CanPoll(x, p) && p.opts.startBlock == startBlock
    ensures Mismatch(x.cursor, x.hash, p.provider) ==> Whole(Poll(x, p, chain), chain, startBlock)
    ensures !Mismatch(x.cursor, x.hash, p.provider) && Whole(x, chain, startBlock) ==>
              (Whole(Poll(x, p, chain), chain, startBlock) <==> !Loses(x, p, chain))
  {
  }

  /** A rebuild that dies is made good by the next pass if and only if it had stored
      a cursor of its own, or the mismatch is still seen, or no log was left to lose. */
  lemma RecoversIff(x: Trail, p: Pass, q: Pass, chain: seq<Log>, startBlock: nat)
    requires TrailOk(x, chain, startBlock) && Mismatch(x.cursor, x.hash, p.provider)
    requires p.opts.startBlock == q.opts.startBlock == startBlock && p.opts.chunkSize >= 1
    ensures
      var y := Poll(x, p, chain);
      var cursor := CursorOr(y.cursor, startBlock);
      Whole(Poll(y, q, chain), chain, startBlock)
      <==> y.scanned == cursor || Mismatch(y.cursor, y.hash, q.provider) || LastPiece(y).hi >= Upto(chain, cursor)
  {
    PollKeepsTrail(x, p, chain, startBlock);
    WholeStep(x, p, chain, startBlock);
    WholeStep(Poll(x, p, chain), q, chain, startBlock);
  }

  /** The pass lives long enough to store the cursor of its first chunk from the start block. */
  predicate StoresCursor(p: Pass, chain: seq<Log>, startBlock: nat)
  {
    && startBlock - 1 < SafeHead(p) && p.opts.maxChunks >= 1
    && (p.budget.Some? ==> p.budget.value > FirstChunk(p, chain, startBlock))
  }

  /** Logs in the first chunk of a rebuild. */
  function FirstChunk(p: Pass, chain: seq<Log>, startBlock: nat): int
  {
    Upto(chain, Min(SafeHead(p), startBlock - 1 + p.opts.chunkSize)) - Base(chain, startBlock)
  }

  /** Logs a rebuild has replayed when it ends before its first cursor write. */
  function ReplayedSoFar(p: Pass, startBlock: nat): nat
  {
    if startBlock - 1 < SafeHead(p) && p.opts.maxChunks >= 1 && p.budget.Some? then p.budget.value else 0
  }

  /** How far a rebuild comes, by its settings and its life. */
  lemma RebuildReach(x: Trail, p: Pass, chain: seq<Log>, startBlock: nat)
    requires TrailOk(x, chain, startBlock) && Mismatch(x.cursor, x.hash, p.provider)
    requires p.opts.startBlock == startBlock && p.opts.chunkSize >= 1
    ensures
      var y := Poll(x, p, chain);
      if StoresCursor(p, chain, startBlock) then y.scanned == CursorOr(y.cursor, startBlock)
      else y.cursor == x.cursor && y.scanned == startBlock - 1
           && LastPiece(y).hi == Base(chain, startBlock) + ReplayedSoFar(p, startBlock)
  {
    var y := Begin(x, p, chain);
    if startBlock - 1 < SafeHead(p) && p.opts.maxChunks >= 1 {
      FirstChunkReach(y, p, chain, startBlock);
    }
  }

  lemma FirstChunkReach(y: Trail, p: Pass, chain: seq<Log>, startBlock: nat)
    requires ChainOk(chain) && p.opts.chunkSize >= 1 && startBlock - 1 < SafeHead(p) && p.opts.maxChunks >= 1
    requires y.pieces != [] && y.scanned == startBlock - 1 && LastPiece(y).hi == Base(chain, startBlock)
    ensures
      var r := ScanOf(y, p, chain);
      if StoresCursor(p, chain, startBlock) then r.block > startBlock - 1
      else r == Reach(startBlock - 1, None, Base(chain, startBlock) + p.budget.value, true)
  {
    var to := Min(SafeHead(p), startBlock - 1 + p.opts.chunkSize);
    UptoMonotone(chain, startBlock - 1, to);
    if StoresCursor(p, chain, startBlock) {
      var c := ScanChunk(chain, startBlock - 1, to, LastPiece(y).hi, p.budget);
      ScanBounds(chain, to, SafeHead(p), p.opts.chunkSize, p.opts.maxChunks - 1, c.n,
                 Spend(p.budget, Upto(chain, to) - Upto(chain, startBlock - 1) + 2));
    }
  }

  /** The same in terms of what an operator can see: a rebuild that ended early is made good
      by the next pass if and only if it lived past its first cursor write, or the node can
      show the next pass the mismatch, or it had replayed all logs up to the old cursor. */
  lemma {:induction false} RecoversIffByBudget(x: Trail, p: Pass, q: Pass, chain: seq<Log>, startBlock: nat)
    requires TrailOk(x, chain, startBlock) && Mismatch(x.cursor, x.hash, p.provider)
    requires p.opts.startBlock == q.opts.startBlock == startBlock && p.opts.chunkSize >= 1
    requires !StoresCursor(p, chain, startBlock)
    ensures
      Whole(Poll(Poll(x, p, chain), q, chain), chain, startBlock)
      <==> Mismatch(x.cursor, x.hash, q.provider)
           || Base(chain, startBlock) + ReplayedSoFar(p, startBlock) >= Upto(chain, x.cursor.value)
  {
    RebuildReach(x, p, chain, startBlock);
    RecoversIff(x, p, q, chain, startBlock);
    UptoMonotone(chain, startBlock - 1, x.cursor.value);
  }

  /** Nothing is ever missing if and only if no pass of the schedule loses logs. */
  lemma WholeThroughoutIff(x: Trail, passes: seq<Pass>, chain: seq<Log>, startBlock: nat)
    requires x.pieces != [] && TrailOk(x, chain, startBlock) && PassesOk(passes, chain, startBlock)
    requires Whole(x, chain, startBlock)
    ensures (forall k :: 0 <= k <= |passes| ==> WholeAt(x, passes, k, chain, startBlock))
       <==> (forall k :: 0 <= k < |passes| ==> !LosesAt(x, passes, k, chain))
  {
    if forall k :: 0 <= k < |passes| ==> !LosesAt(x, passes, k, chain) {
      forall k | 0 <= k <= |passes|
        ensures WholeAt(x, passes, k, chain, startBlock)
      {
        StaysWhole(x, passes, k, chain, startBlock);
      }
    }
    if forall k :: 0 <= k <= |passes| ==> WholeAt(x, passes, k, chain, startBlock) {
      forall k | 0 <= k < |passes|
        ensures !LosesAt(x, passes, k, chain)
      {
        assert WholeAt(x, passes, k, chain, startBlock) && WholeAt(x, passes, k + 1, chain, startBlock);
        WholeNext(x, passes, k, chain, startBlock);
      }
    }
  }

  predicate WholeAt(x: Trail, passes: seq<Pass>, k: nat, chain: seq<Log>, startBlock: nat)
    requires x.pieces != [] && k <= |passes|
  {
    Whole(Run(x, passes[..k], chain), chain, startBlock)
  }

  predicate LosesAt(x: Trail, passes: seq<Pass>, k: nat, chain: seq<Log>)
    requires x.pieces != [] && k < |passes|
  {
    Loses(Run(x, passes[..k], chain), passes[k], chain)
  }

  lemma WholeNext(x: Trail, passes: seq<Pass>, k: nat, chain: seq<Log>, startBlock: nat)
    requires x.pieces != [] && TrailOk(x, chain, startBlock) && PassesOk(passes, chain, startBlock) && k < |passes|
    requires WholeAt(x, passes, k, chain, startBlock)
    ensures WholeAt(x, passes, k + 1, chain, startBlock) <==> !LosesAt(x, passes, k, chain)
  {
    assert passes[..k + 1][..k] == passes[..k];
    assert PassOk(passes[k], chain, startBlock);
    RunKeepsTrail(x, passes[..k], chain, startBlock);
    WholeStep(Run(x, passes[..k], chain), passes[k], chain, startBlock);
  }

  lemma {:induction false} StaysWhole(x: Trail, passes: seq<Pass>, k: nat, chain: seq<Log>, startBlock: nat)
    requires x.pieces != [] && TrailOk(x, chain, startBlock) && PassesOk(passes, chain, startBlock) && k <= |passes|
    requires Whole(x, chain, startBlock) && forall j :: 0 <= j < k ==> !LosesAt(x, passes, j, chain)
    ensures WholeAt(x, passes, k, chain, startBlock)
  {
    if k > 0 {
      StaysWhole(x, passes, k - 1, chain, startBlock);
      WholeNext(x, passes, k - 1, chain, startBlock);
    }
  }
}
