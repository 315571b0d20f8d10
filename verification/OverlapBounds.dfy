/** How far passes in flight together come, in terms of the heads their nodes showed
    and the confirmations they asked for. */
module OverlapBounds {

  import opened Parties
  import opened Arithmetic
  import opened IndexDb
  import opened ChainLogs
  import opened IndexTrail
  import opened Overlap
  import opened OverlapHistory

  /** One of the passes these steps start saw block `b` with the confirmations it asked for. */
  predicate Seen(steps: seq<Step>, b: int)
  {
    exists i :: 0 <= i < |steps| && steps[i].Enter?
             && b <= steps[i].pass.provider.head - steps[i].pass.opts.confirmations
  }

  /** Block `b` has the confirmations this pass asks for. */
  predicate Deep(f: Flight, b: int)
  {
    b <= f.pass.provider.head - f.pass.opts.confirmations
  }

  /** The chunk a pass is in: a full one, or up to the last block that is deep enough. */
  predicate InChunk(f: Flight, to: int)
  {
    && f.chunks > 0 && f.from < to && Deep(f, to)
    && to == Min(f.pass.provider.head - f.pass.opts.confirmations, f.from + f.pass.opts.chunkSize)
  }

  predicate Heading(f: Flight, chain: seq<Log>)
  {
    && f.pass.opts.chunkSize >= 1
    && match f.phase
       case Looking(_, _, _) => f.chunks == f.pass.opts.maxChunks
       case Fetching(to) => InChunk(f, to)
       case Scanning(to, next, hi) => InChunk(f, to) && hi == Upto(chain, to)
       case Checked(to, next, hi) => InChunk(f, to) && hi == Upto(chain, to) && next < hi
       case Applied(to, next, hi) => InChunk(f, to) && hi == Upto(chain, to)
       case Hashing(to) => InChunk(f, to)
  }

  ghost predicate AllHeading(s: Machine, chain: seq<Log>)
  {
    forall q :: q in s.flights ==> Heading(s.flights[q], chain)
  }

  lemma ProceedHeading(s: Machine, id: nat, f: Flight, chain: seq<Log>)
    requires AllHeading(s, chain) && f.pass.opts.chunkSize >= 1
    ensures AllHeading(Proceed(s, id, f, chain), chain)
  {
  }

  lemma LookHeading(s: Machine, id: nat, f: Flight, chain: seq<Log>)
    requires AllHeading(s, chain) && id in s.flights && f == s.flights[id] && f.phase.Looking?
    ensures AllHeading(Looked(s, id, f, chain), chain)
  {
    assert Heading(f, chain);
    if Differ(f.phase.hash, f.pass.provider.hashAt(f.phase.cursor)) {
      ProceedHeading(Wiped(s, f.phase.cursor), id, StartOver(f, s.wipes + 1), chain);
    } else {
      ProceedHeading(s, id, f.(from := f.phase.cursor), chain);
    }
  }

  lemma TakenHeading(s: Machine, id: nat, f: Flight, chain: seq<Log>)
    requires AllHeading(s, chain) && id in s.flights && f == s.flights[id] && f.phase.Checked? && f.phase.next < |chain|
    ensures AllHeading(Taken(s, id, f, chain), chain)
  {
    assert Heading(f, chain);
  }

  lemma FlightHeading(s: Machine, step: Step, f: Flight, chain: seq<Log>)
    requires AllHeading(s, chain) && !step.Die? && !step.Enter? && step.id in s.flights && f == s.flights[step.id]
    ensures AllHeading(MoveFlight(s, step, f, chain), chain)
  {
    assert Heading(f, chain);
    match step {
      case Look(id) =>
        if f.phase.Looking? {
          LookHeading(s, id, f, chain);
        }
      case Apply(id) =>
        if f.phase.Checked? && f.phase.next < |chain| {
          TakenHeading(s, id, f, chain);
        }
      case WriteHash(id) =>
        if f.phase.Hashing? && f.chunks > 0 {
          ProceedHeading(HashWritten(s, f), id, NextChunk(f), chain);
        }
      case _ =>
    }
  }

  lemma MoveHeading(s: Machine, step: Step, chain: seq<Log>, startBlock: nat)
    requires AllHeading(s, chain) && StepOk(step, chain, startBlock)
    ensures AllHeading(Move(s, step, chain), chain)
  {
    if step.Enter? && step.id !in s.flights {
      ProceedHeading(s, step.id, NewFlight(s, step.pass), chain);
    } else if !step.Die? && !step.Enter? && step.id in s.flights {
      FlightHeading(s, step, s.flights[step.id], chain);
    }
  }

  lemma {:induction false} RunHeading(s: Machine, steps: seq<Step>, chain: seq<Log>, startBlock: nat)
    requires AllHeading(s, chain) && StepsOk(steps, chain, startBlock)
    ensures AllHeading(After(s, steps, chain), chain)
  {
    if steps != [] {
      RunHeading(s, steps[..|steps| - 1], chain, startBlock);
      MoveHeading(After(s, steps[..|steps| - 1], chain), steps[|steps| - 1], chain, startBlock);
    }
  }

  // ---- nothing is stored or applied that is not deep enough ----

  /** What each pass may look at, some pass has seen: it was started by one of the steps. */
  ghost predicate FlightsSeen(s: Machine, steps: seq<Step>)
  {
    forall q :: q in s.flights ==> SeenBy(s.flights[q].pass, steps)
  }

  ghost predicate SeenBy(p: Pass, steps: seq<Step>)
  {
    forall b :: b <= p.provider.head - p.opts.confirmations ==> Seen(steps, b)
  }

  ghost predicate StoreSeen(s: Machine, chain: seq<Log>, steps: seq<Step>)
  {
    && (s.cursor.Some? ==> Seen(steps, s.cursor.value))
    && forall k :: k in s.applied && k < |chain| ==> Seen(steps, chain[k].block)
  }

  lemma SeenStill(steps: seq<Step>, step: Step)
    ensures forall b :: Seen(steps, b) ==> Seen(steps + [step], b)
    ensures step.Enter? ==> SeenBy(step.pass, steps + [step])
  {
    assert (steps + [step])[|steps|] == step;
    forall b | Seen(steps, b)
      ensures Seen(steps + [step], b)
    {
      var i :| 0 <= i < |steps| && steps[i].Enter?
            && b <= steps[i].pass.provider.head - steps[i].pass.opts.confirmations;
      assert (steps + [step])[i] == steps[i];
    }
  }

  lemma FlightsSeenNext(s: Machine, step: Step, steps: seq<Step>, chain: seq<Log>)
    requires FlightsSeen(s, steps)
    ensures FlightsSeen(Move(s, step, chain), steps + [step])
  {
    PassesKept(s, step, chain);
    SeenStill(steps, step);
    var s' := Move(s, step, chain);
    forall q | q in s'.flights
      ensures SeenBy(s'.flights[q].pass, steps + [step])
    {
      assert q in s.flights ==> SeenBy(s.flights[q].pass, steps);
    }
  }

  lemma CursorMoves(s: Machine, step: Step, chain: seq<Log>)
    ensures Move(s, step, chain).cursor
         == if MovesCursor(s, step) then Some(s.flights[step.id].phase.to) else s.cursor
  {
  }

  lemma CursorSeenNext(s: Machine, step: Step, steps: seq<Step>, chain: seq<Log>)
    requires AllHeading(s, chain) && FlightsSeen(s, steps) && (s.cursor.Some? ==> Seen(steps, s.cursor.value))
    ensures var s' := Move(s, step, chain); s'.cursor.Some? ==> Seen(steps + [step], s'.cursor.value)
  {
    CursorMoves(s, step, chain);
    SeenStill(steps, step);
    if MovesCursor(s, step) {
      var f := s.flights[step.id];
      assert Heading(f, chain) && SeenBy(f.pass, steps);
      assert Seen(steps, f.phase.to);
    }
  }

  lemma AppliedSeenNext(s: Machine, step: Step, steps: seq<Step>, chain: seq<Log>)
    requires ChainOk(chain) && AllHeading(s, chain) && FlightsSeen(s, steps) && StoreSeen(s, chain, steps)
    ensures forall k :: k in Move(s, step, chain).applied && k < |chain| ==> Seen(steps + [step], chain[k].block)
  {
    AppliedMoves(s, step, chain);
    SeenStill(steps, step);
    if step.Apply? && step.id in s.flights && s.flights[step.id].phase.Checked? {
      var f := s.flights[step.id];
      assert Heading(f, chain) && SeenBy(f.pass, steps);
      if f.phase.next < |chain| {
        UptoSplits(chain, f.phase.to, f.phase.next);
        assert Seen(steps, chain[f.phase.next].block);
      }
    }
  }

  ghost predicate AllSeen(s: Machine, steps: seq<Step>, chain: seq<Log>)
  {
    AllHeading(s, chain) && FlightsSeen(s, steps) && StoreSeen(s, chain, steps)
  }

  lemma {:induction false} RunSeen(steps: seq<Step>, chain: seq<Log>, startBlock: nat)
    requires ChainOk(chain) && StepsOk(steps, chain, startBlock)
    ensures AllSeen(After(FRESH, steps, chain), steps, chain)
  {
    if steps != [] {
      var before, last := steps[..|steps| - 1], steps[|steps| - 1];
      var s := After(FRESH, before, chain);
      RunSeen(before, chain, startBlock);
      MoveHeading(s, last, chain, startBlock);
      FlightsSeenNext(s, last, before, chain);
      CursorSeenNext(s, last, before, chain);
      AppliedSeenNext(s, last, before, chain);
      assert before + [last] == steps;
    }
  }

  /** In every interleaving, with any wipes, failures and deaths, the stored cursor and every
      applied log lie between the start block and a block that the node of some pass had shown
      with the confirmations that pass asks for. */
  lemma OverlapWithinHeads(steps: seq<Step>, chain: seq<Log>, startBlock: nat)
    requires ChainOk(chain) && StepsOk(steps, chain, startBlock)
    ensures
      var s := After(FRESH, steps, chain);
      && (s.cursor.Some? ==> startBlock - 1 <= s.cursor.value && Seen(steps, s.cursor.value))
      && (forall k :: k in s.applied ==> k < |chain| && startBlock <= chain[k].block && Seen(steps, chain[k].block))
  {
    RunSeen(steps, chain, startBlock);
    FreshIsOrdinary(chain, startBlock);
    RunTidy(FRESH, steps, chain, startBlock);
    var s := After(FRESH, steps, chain);
    forall k | k in s.applied
      ensures k < |chain| && startBlock <= chain[k].block && Seen(steps, chain[k].block)
    {
      UptoSplits(chain, startBlock - 1, k);
    }
  }

  // ---- where a pass ends by itself ----

  /** The pass that set out from block `start` has taken full chunks so far. */
  ghost predicate OnCourse(s: Machine, id: nat, p: Pass, start: int)
  {
    && id in s.flights && s.flights[id].pass == p && !s.flights[id].phase.Looking?
    && s.flights[id].chunks <= p.opts.maxChunks
    && s.flights[id].from == start + p.opts.chunkSize * (p.opts.maxChunks - s.flights[id].chunks)
  }

  /** Chunks are counted down one by one. */
  lemma OneChunkOn(start: int, chunkSize: nat, maxChunks: nat, chunks: nat)
    requires 0 < chunks <= maxChunks
    ensures start + chunkSize * (maxChunks - chunks) + chunkSize == start + chunkSize * (maxChunks - (chunks - 1))
  {
    OneMore(maxChunks - chunks, chunkSize);
  }

  lemma CourseKept(s: Machine, step: Step, chain: seq<Log>, id: nat, p: Pass, start: int)
    requires AllHeading(s, chain) && OnCourse(s, id, p, start) && id in Move(s, step, chain).flights
    ensures OnCourse(Move(s, step, chain), id, p, start)
  {
    var f := s.flights[id];
    assert Heading(f, chain);
    if step == WriteHash(id) && f.phase.Hashing? {
      OneChunkOn(start, p.opts.chunkSize, p.opts.maxChunks, f.chunks);
    } else {
      SamePlace(s, step, chain, id);
    }
  }

  /** Only the end of a chunk moves a pass on. */
  lemma SamePlace(s: Machine, step: Step, chain: seq<Log>, id: nat)
    requires id in s.flights && !s.flights[id].phase.Looking? && id in Move(s, step, chain).flights
    requires !(step == WriteHash(id) && s.flights[id].phase.Hashing?)
    ensures var f, f' := s.flights[id], Move(s, step, chain).flights[id];
      f'.pass == f.pass && f'.from == f.from && f'.chunks == f.chunks && !f'.phase.Looking?
  {
  }

  lemma {:induction false} CourseThroughout(s: Machine, more: seq<Step>, chain: seq<Log>, startBlock: nat, id: nat,
                                            p: Pass, start: int)
    requires StepsOk(more, chain, startBlock) && AllHeading(s, chain) && OnCourse(s, id, p, start)
    requires forall n: nat :: n <= |more| ==> InFlight(s, more, n, chain, id)
    ensures OnCourse(After(s, more, chain), id, p, start)
  {
    if more != [] {
      var n := |more| - 1;
      forall m: nat | m <= n
        ensures InFlight(s, more[..n], m, chain, id)
      {
        assert InFlight(s, more, m, chain, id) && more[..n][..m] == more[..m];
      }
      CourseThroughout(s, more[..n], chain, startBlock, id, p, start);
      RunHeading(s, more[..n], chain, startBlock);
      assert InFlight(s, more, |more|, chain, id) && more[..|more|] == more;
      CourseKept(After(s, more[..n], chain), more[n], chain, id, p, start);
    }
  }

  predicate InFlight(s: Machine, steps: seq<Step>, n: nat, chain: seq<Log>, id: nat)
    requires n <= |steps|
  {
    id in After(s, steps[..n], chain).flights
  }

  /** Whatever other passes do meanwhile: a pass that set out to scan from block `start` and ends by
      itself has stored the cursor last at the head less its confirmations, or at as many full
      chunks from `start` as it may take, whichever comes first. */
  lemma PassEndsWhereItMust(steps: seq<Step>, more: seq<Step>, chain: seq<Log>, startBlock: nat, id: nat, p: Pass,
                            start: int)
    requires StepsOk(steps, chain, startBlock) && StepsOk(more, chain, startBlock)
    requires var s := After(FRESH, steps, chain);
      && id in s.flights && s.flights[id].phase.Fetching? && s.flights[id].pass == p
      && s.flights[id].chunks == p.opts.maxChunks && s.flights[id].from == start
    requires forall n: nat :: n <= |more| ==> InFlight(After(FRESH, steps, chain), more, n, chain, id)
    requires var s := After(After(FRESH, steps, chain), more, chain);
      id in s.flights && s.flights[id].phase.Hashing? && id !in Move(s, WriteHash(id), chain).flights
    ensures After(After(FRESH, steps, chain), more, chain).flights[id].phase.to
         == Min(p.provider.head - p.opts.confirmations, start + p.opts.chunkSize * p.opts.maxChunks)
  {
    var s0 := After(FRESH, steps, chain);
    RunHeading(FRESH, steps, chain, startBlock);
    RunHeading(s0, more, chain, startBlock);
    assert p.opts.chunkSize * (p.opts.maxChunks - s0.flights[id].chunks) == 0;
    CourseThroughout(s0, more, chain, startBlock, id, p, start);
    var s := After(s0, more, chain);
    LastChunk(s, id, p, start, chain);
  }

  lemma LastChunk(s: Machine, id: nat, p: Pass, start: int, chain: seq<Log>)
    requires AllHeading(s, chain) && OnCourse(s, id, p, start) && s.flights[id].phase.Hashing?
    requires id !in Move(s, WriteHash(id), chain).flights
    ensures s.flights[id].phase.to
         == Min(p.provider.head - p.opts.confirmations, start + p.opts.chunkSize * p.opts.maxChunks)
  {
    var f := s.flights[id];
    assert Heading(f, chain);
    OneChunkOn(start, p.opts.chunkSize, p.opts.maxChunks, f.chunks);
    assert f.phase.to >= SafeHead(p) || f.chunks == 1;
    Scale(p.opts.maxChunks - (f.chunks - 1), p.opts.maxChunks, p.opts.chunkSize);
  }
}
