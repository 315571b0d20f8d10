/** Runs of overlapping passes, wipes included: which cursor can be trusted to have
    only applied logs behind it, and which logs a pass from before a wipe passes over
    for good. */
module OverlapHistory {

  import opened Parties
  import opened IndexDb
  import opened ChainLogs
  import opened IndexTrail
  import opened Overlap
  import opened OverlapMarks

  /** Every log from the start block up to position `n` has been applied. */
  ghost predicate Has(applied: seq<nat>, base: nat, n: nat)
  {
    forall k: nat :: base <= k < n ==> k in applied
  }

  // ---- what every run keeps ----

  /** A pass is inside the chunk it has fetched. */
  ghost predicate Shaped(f: Flight, chain: seq<Log>, startBlock: nat)
  {
    var base := Base(chain, startBlock);
    && f.pass.opts.startBlock == startBlock && startBlock - 1 <= f.from
    && match f.phase
       case Looking(cursor, _, _) => startBlock - 1 <= cursor
       case Fetching(to) => f.from <= to
       case Scanning(to, next, hi) => f.from <= to && base <= next && hi == Upto(chain, to)
       case Checked(to, next, hi) => f.from <= to && base <= next < hi && hi == Upto(chain, to)
       case Applied(to, next, hi) => f.from <= to && base <= next < hi && hi == Upto(chain, to)
       case Hashing(to) => f.from <= to
  }

  ghost predicate Tidy(s: Machine, chain: seq<Log>, startBlock: nat)
  {
    && (s.cursor.Some? ==> startBlock - 1 <= s.cursor.value)
    && s.cursorSince <= s.wipes
    && (forall k :: k in s.applied ==> Base(chain, startBlock) <= k < |chain|)
    && (forall q :: q in s.flights ==> Shaped(s.flights[q], chain, startBlock) && s.flights[q].since <= s.wipes)
  }

  lemma ProceedTidy(s: Machine, id: nat, f: Flight, chain: seq<Log>, startBlock: nat)
    requires Tidy(s, chain, startBlock)
    requires f.pass.opts.startBlock == startBlock && startBlock - 1 <= f.from && f.since <= s.wipes
    ensures Tidy(Proceed(s, id, f, chain), chain, startBlock)
  {
  }

  lemma WipedTidy(s: Machine, cursor: nat, chain: seq<Log>, startBlock: nat)
    requires Tidy(s, chain, startBlock)
    ensures Tidy(Wiped(s, cursor), chain, startBlock)
  {
    var s' := Wiped(s, cursor);
    forall q | q in s'.flights
      ensures Shaped(s'.flights[q], chain, startBlock) && s'.flights[q].since <= s'.wipes
    {
      assert Shaped(s.flights[q], chain, startBlock);
    }
  }

  lemma LookTidy(s: Machine, id: nat, f: Flight, chain: seq<Log>, startBlock: nat)
    requires Tidy(s, chain, startBlock) && id in s.flights && f == s.flights[id] && f.phase.Looking?
    ensures Tidy(Looked(s, id, f, chain), chain, startBlock)
  {
    assert Shaped(f, chain, startBlock);
    if Differ(f.phase.hash, f.pass.provider.hashAt(f.phase.cursor)) {
      WipedTidy(s, f.phase.cursor, chain, startBlock);
      ProceedTidy(Wiped(s, f.phase.cursor), id, StartOver(f, s.wipes + 1), chain, startBlock);
    } else {
      ProceedTidy(s, id, f.(from := f.phase.cursor), chain, startBlock);
    }
  }

  lemma FetchTidy(s: Machine, id: nat, f: Flight, chain: seq<Log>, startBlock: nat)
    requires ChainOk(chain) && Tidy(s, chain, startBlock) && id in s.flights && f == s.flights[id] && f.phase.Fetching?
    ensures Tidy(MoveFlight(s, Fetch(id), f, chain), chain, startBlock)
  {
    assert Shaped(f, chain, startBlock);
    UptoMonotone(chain, startBlock - 1, f.from);
  }

  lemma TakenTidy(s: Machine, id: nat, f: Flight, chain: seq<Log>, startBlock: nat)
    requires Tidy(s, chain, startBlock) && id in s.flights && f == s.flights[id]
    requires f.phase.Checked? && f.phase.next < |chain|
    ensures Tidy(Taken(s, id, f, chain), chain, startBlock)
  {
    assert Shaped(f, chain, startBlock);
  }

  lemma FlightTidy(s: Machine, step: Step, f: Flight, chain: seq<Log>, startBlock: nat)
    requires ChainOk(chain) && Tidy(s, chain, startBlock)
    requires !step.Die? && !step.Enter? && step.id in s.flights && f == s.flights[step.id]
    ensures Tidy(MoveFlight(s, step, f, chain), chain, startBlock)
  {
    assert Shaped(f, chain, startBlock);
    match step {
      case Look(id) =>
        if f.phase.Looking? {
          LookTidy(s, id, f, chain, startBlock);
        }
      case Fetch(id) =>
        if f.phase.Fetching? {
          FetchTidy(s, id, f, chain, startBlock);
        }
      case Apply(id) =>
        if f.phase.Checked? && f.phase.next < |chain| {
          TakenTidy(s, id, f, chain, startBlock);
        }
      case WriteHash(id) =>
        if f.phase.Hashing? && f.chunks > 0 {
          ProceedTidy(HashWritten(s, f), id, NextChunk(f), chain, startBlock);
        }
      case _ =>
    }
  }

  lemma MoveTidy(s: Machine, step: Step, chain: seq<Log>, startBlock: nat)
    requires ChainOk(chain) && Tidy(s, chain, startBlock) && StepOk(step, chain, startBlock)
    ensures Tidy(Move(s, step, chain), chain, startBlock)
  {
    if step.Enter? && step.id !in s.flights {
      ProceedTidy(s, step.id, NewFlight(s, step.pass), chain, startBlock);
    } else if !step.Die? && !step.Enter? && step.id in s.flights {
      FlightTidy(s, step, s.flights[step.id], chain, startBlock);
    }
  }

  // ---- which cursor and which passes can be trusted ----

  /** How far a pass has come, all logs before it being its business or its cursor's. */
  function Behind(f: Flight, chain: seq<Log>): nat
  {
    match f.phase
    case Looking(cursor, _, _) => Upto(chain, cursor)
    case Fetching(to) => Upto(chain, f.from)
    case Scanning(to, next, hi) => next
    case Checked(to, next, hi) => next
    case Applied(to, next, hi) => next + 1
    case Hashing(to) => Upto(chain, to)
  }

  /** What a pass that set out since the last wipe has behind it has been applied since. */
  ghost predicate Covers(f: Flight, applied: seq<nat>, wipes: nat, chain: seq<Log>, startBlock: nat)
  {
    f.since == wipes ==> Has(applied, Base(chain, startBlock), Behind(f, chain))
  }

  ghost predicate CursorCovers(s: Machine, chain: seq<Log>, startBlock: nat)
  {
    s.cursor.Some? && s.cursorSince == s.wipes ==>
      Has(s.applied, Base(chain, startBlock), Upto(chain, s.cursor.value))
  }

  ghost predicate Covered(s: Machine, chain: seq<Log>, startBlock: nat)
  {
    && CursorCovers(s, chain, startBlock)
    && forall q :: q in s.flights ==> Covers(s.flights[q], s.applied, s.wipes, chain, startBlock)
  }

  lemma ProceedCovered(s: Machine, id: nat, f: Flight, chain: seq<Log>, startBlock: nat)
    requires Covered(s, chain, startBlock)
    requires f.since == s.wipes ==> Has(s.applied, Base(chain, startBlock), Upto(chain, f.from))
    ensures Covered(Proceed(s, id, f, chain), chain, startBlock)
  {
  }

  lemma WipedCovered(s: Machine, cursor: nat, chain: seq<Log>, startBlock: nat)
    requires Tidy(s, chain, startBlock)
    ensures Covered(Wiped(s, cursor), chain, startBlock)
  {
  }

  lemma LookCovered(s: Machine, id: nat, f: Flight, chain: seq<Log>, startBlock: nat)
    requires Tidy(s, chain, startBlock) && Covered(s, chain, startBlock)
    requires id in s.flights && f == s.flights[id] && f.phase.Looking?
    ensures Covered(Looked(s, id, f, chain), chain, startBlock)
  {
    assert Shaped(f, chain, startBlock) && Covers(f, s.applied, s.wipes, chain, startBlock);
    if Differ(f.phase.hash, f.pass.provider.hashAt(f.phase.cursor)) {
      WipedCovered(s, f.phase.cursor, chain, startBlock);
      ProceedCovered(Wiped(s, f.phase.cursor), id, StartOver(f, s.wipes + 1), chain, startBlock);
    } else {
      ProceedCovered(s, id, f.(from := f.phase.cursor), chain, startBlock);
    }
  }

  lemma TestedCovered(s: Machine, id: nat, f: Flight, chain: seq<Log>, startBlock: nat)
    requires Covered(s, chain, startBlock) && Sound(s, chain) && id in s.flights && f == s.flights[id]
    requires f.phase.Scanning? && f.phase.next < f.phase.hi <= |chain|
    ensures Covered(Tested(s, id, f, chain), chain, startBlock)
  {
    assert Covers(f, s.applied, s.wipes, chain, startBlock);
    assert chain[f.phase.next].key in s.markers ==> f.phase.next in s.applied;
  }

  lemma TakenCovered(s: Machine, id: nat, f: Flight, chain: seq<Log>, startBlock: nat)
    requires Covered(s, chain, startBlock) && id in s.flights && f == s.flights[id]
    requires f.phase.Checked? && f.phase.next < |chain|
    ensures Covered(Taken(s, id, f, chain), chain, startBlock)
  {
    var s' := Taken(s, id, f, chain);
    assert Covers(f, s.applied, s.wipes, chain, startBlock);
    forall q | q in s'.flights
      ensures Covers(s'.flights[q], s'.applied, s'.wipes, chain, startBlock)
    {
      if q != id {
        StillCovers(s.flights[q], s'.flights[q], s.applied, f.phase.next, s.wipes, chain, startBlock);
      }
    }
  }

  lemma StillCovers(f: Flight, f': Flight, applied: seq<nat>, k: nat, wipes: nat, chain: seq<Log>, startBlock: nat)
    requires Covers(f, applied, wipes, chain, startBlock)
    requires f'.since == f.since && f'.from == f.from && f'.phase == f.phase
    ensures Covers(f', applied + [k], wipes, chain, startBlock)
  {
  }

  lemma CursorCovered(s: Machine, id: nat, f: Flight, chain: seq<Log>, startBlock: nat)
    requires Tidy(s, chain, startBlock) && Covered(s, chain, startBlock) && id in s.flights && f == s.flights[id]
    requires f.phase.Scanning? && f.phase.next >= f.phase.hi
    ensures Covered(MoveFlight(s, WriteCursor(id), f, chain), chain, startBlock)
  {
    assert Shaped(f, chain, startBlock) && Covers(f, s.applied, s.wipes, chain, startBlock);
  }

  lemma FetchCovered(s: Machine, id: nat, f: Flight, chain: seq<Log>, startBlock: nat)
    requires Covered(s, chain, startBlock) && id in s.flights && f == s.flights[id] && f.phase.Fetching?
    ensures Covered(MoveFlight(s, Fetch(id), f, chain), chain, startBlock)
  {
    assert Covers(f, s.applied, s.wipes, chain, startBlock);
  }

  lemma NotedCovered(s: Machine, id: nat, f: Flight, chain: seq<Log>, startBlock: nat)
    requires Covered(s, chain, startBlock) && id in s.flights && f == s.flights[id]
    requires f.phase.Applied? && f.phase.next < |chain|
    ensures Covered(Noted(s, id, f, chain), chain, startBlock)
  {
    assert Covers(f, s.applied, s.wipes, chain, startBlock);
  }

  lemma FlightCovered(s: Machine, step: Step, f: Flight, chain: seq<Log>, startBlock: nat)
    requires ChainOk(chain) && Tidy(s, chain, startBlock) && Covered(s, chain, startBlock) && Sound(s, chain)
    requires !step.Die? && !step.Enter? && step.id in s.flights && f == s.flights[step.id]
    ensures Covered(MoveFlight(s, step, f, chain), chain, startBlock)
  {
    assert Shaped(f, chain, startBlock) && Covers(f, s.applied, s.wipes, chain, startBlock);
    match step {
      case Look(id) =>
        if f.phase.Looking? {
          LookCovered(s, id, f, chain, startBlock);
        }
      case Fetch(id) =>
        if f.phase.Fetching? {
          FetchCovered(s, id, f, chain, startBlock);
        }
      case Check(id) =>
        if f.phase.Scanning? && f.phase.next < f.phase.hi {
          TestedCovered(s, id, f, chain, startBlock);
        }
      case Apply(id) =>
        if f.phase.Checked? {
          TakenCovered(s, id, f, chain, startBlock);
        }
      case Mark(id) =>
        if f.phase.Applied? && f.phase.next < |chain| {
          NotedCovered(s, id, f, chain, startBlock);
        }
      case WriteCursor(id) =>
        if f.phase.Scanning? && f.phase.next >= f.phase.hi {
          CursorCovered(s, id, f, chain, startBlock);
        }
      case WriteHash(id) =>
        if f.phase.Hashing? && f.chunks > 0 {
          ProceedCovered(HashWritten(s, f), id, NextChunk(f), chain, startBlock);
        }
      case _ =>
    }
  }

  lemma MoveCovered(s: Machine, step: Step, chain: seq<Log>, startBlock: nat)
    requires ChainOk(chain) && Tidy(s, chain, startBlock) && StepOk(step, chain, startBlock)
    requires Covered(s, chain, startBlock) && Sound(s, chain)
    ensures Covered(Move(s, step, chain), chain, startBlock)
  {
    if step.Enter? && step.id !in s.flights {
      ProceedCovered(s, step.id, NewFlight(s, step.pass), chain, startBlock);
    } else if !step.Die? && !step.Enter? && step.id in s.flights {
      FlightCovered(s, step, s.flights[step.id], chain, startBlock);
    }
  }

  // ---- no log is passed over by a pass of this replay ----

  /** A machine as it may be met between two wipes: everything above holds of it. */
  ghost predicate Ordinary(s: Machine, chain: seq<Log>, startBlock: nat)
  {
    Tidy(s, chain, startBlock) && Knows(s, chain) && HandsKnown(s, chain) && Accounted(s, chain)
  }

  ghost predicate NoneStray(s: Machine, steps: seq<Step>, chain: seq<Log>)
  {
    forall n: nat :: n < |steps| ==> !StrayAt(s, steps, n, chain)
  }

  lemma {:induction false} RunOrdinary(s: Machine, steps: seq<Step>, chain: seq<Log>, startBlock: nat)
    requires ChainOk(chain) && StepsOk(steps, chain, startBlock) && Ordinary(s, chain, startBlock)
    ensures Ordinary(After(s, steps, chain), chain, startBlock)
  {
    RunKnows(s, steps, chain);
    RunHands(s, steps, chain);
    RunAccounted(s, steps, chain);
    RunTidy(s, steps, chain, startBlock);
  }

  lemma {:induction false} RunTidy(s: Machine, steps: seq<Step>, chain: seq<Log>, startBlock: nat)
    requires ChainOk(chain) && StepsOk(steps, chain, startBlock) && Tidy(s, chain, startBlock)
    ensures Tidy(After(s, steps, chain), chain, startBlock)
  {
    if steps != [] {
      RunTidy(s, steps[..|steps| - 1], chain, startBlock);
      MoveTidy(After(s, steps[..|steps| - 1], chain), steps[|steps| - 1], chain, startBlock);
    }
  }

  lemma FreshIsOrdinary(chain: seq<Log>, startBlock: nat)
    ensures Ordinary(FRESH, chain, startBlock) && Covered(FRESH, chain, startBlock) && Sound(FRESH, chain)
  {
  }

  /** What is covered: the stored cursor, the passes of this replay, and the markers. */
  ghost predicate Reliable(s: Machine, chain: seq<Log>, startBlock: nat)
  {
    Covered(s, chain, startBlock) && Sound(s, chain)
  }

  lemma ReliableNext(s: Machine, step: Step, chain: seq<Log>, startBlock: nat)
    requires ChainOk(chain) && StepOk(step, chain, startBlock) && Ordinary(s, chain, startBlock)
    requires Reliable(s, chain, startBlock) && !Stray(s, step)
    ensures Reliable(Move(s, step, chain), chain, startBlock)
  {
    MoveCovered(s, step, chain, startBlock);
    SoundStep(s, step, chain);
  }

  lemma {:induction false} RunReliable(s: Machine, steps: seq<Step>, n: nat, chain: seq<Log>, startBlock: nat)
    requires ChainOk(chain) && StepsOk(steps, chain, startBlock) && Ordinary(s, chain, startBlock)
    requires n <= |steps| && Reliable(s, chain, startBlock)
    requires forall m: nat :: m < n ==> !StrayAt(s, steps, m, chain)
    ensures Reliable(After(s, steps[..n], chain), chain, startBlock)
  {
    if n > 0 {
      RunReliable(s, steps, n - 1, chain, startBlock);
      RunOrdinary(s, steps[..n - 1], chain, startBlock);
      AfterTake(s, steps, n - 1, chain);
      assert !StrayAt(s, steps, n - 1, chain) && StepOk(steps[n - 1], chain, startBlock);
      ReliableNext(After(s, steps[..n - 1], chain), steps[n - 1], chain, startBlock);
    }
  }

  /** Over all interleavings with any wipes, failures and deaths: if no mark is stray and
      the stored cursor was written by a pass that set out since the last wipe, or from
      such a cursor, every log up to it has been applied since. */
  lemma NoLogPassedOver(steps: seq<Step>, chain: seq<Log>, startBlock: nat)
    requires ChainOk(chain) && StepsOk(steps, chain, startBlock) && NoneStray(FRESH, steps, chain)
    ensures Reliable(After(FRESH, steps, chain), chain, startBlock)
  {
    FreshIsOrdinary(chain, startBlock);
    RunReliable(FRESH, steps, |steps|, chain, startBlock);
    assert steps[..|steps|] == steps;
  }

  lemma {:induction false} WipesGrow(s: Machine, steps: seq<Step>, n: nat, chain: seq<Log>)
    requires n <= |steps|
    ensures After(s, steps[..n], chain).wipes <= After(s, steps, chain).wipes
    decreases |steps|
  {
    if n < |steps| {
      WipesGrow(s, steps[..|steps| - 1], n, chain);
      assert steps[..|steps| - 1][..n] == steps[..n];
      AppliedMoves(After(s, steps[..|steps| - 1], chain), steps[|steps| - 1], chain);
    } else {
      assert steps[..n] == steps;
    }
  }

  /** With no wipe no mark is stray, and any cursor will do. */
  lemma UnwipedPassesNothingOver(steps: seq<Step>, chain: seq<Log>, startBlock: nat)
    requires ChainOk(chain) && StepsOk(steps, chain, startBlock) && After(FRESH, steps, chain).wipes == 0
    ensures NoneStray(FRESH, steps, chain)
    ensures var s := After(FRESH, steps, chain);
      s.cursor.Some? ==> Has(s.applied, Base(chain, startBlock), Upto(chain, s.cursor.value))
  {
    forall n: nat | n < |steps|
      ensures !StrayAt(FRESH, steps, n, chain)
    {
      WipesGrow(FRESH, steps, n, chain);
      RunHands(FRESH, steps[..n], chain);
    }
    NoLogPassedOver(steps, chain, startBlock);
    FreshIsOrdinary(chain, startBlock);
    RunTidy(FRESH, steps, chain, startBlock);
  }

  // ---- a cursor from before the wipe ----

  predicate MovesCursor(s: Machine, step: Step)
  {
    && step.WriteCursor? && step.id in s.flights && s.flights[step.id].phase.Scanning?
    && s.flights[step.id].phase.next >= s.flights[step.id].phase.hi
  }

  /** Every log up to the stored cursor has been applied since the last wipe. */
  ghost predicate NothingMissing(s: Machine, chain: seq<Log>, startBlock: nat)
  {
    s.cursor.Some? ==> Has(s.applied, Base(chain, startBlock), Upto(chain, s.cursor.value))
  }

  /** A cursor write leaves logs behind it that have not been applied since the last wipe
      if and only if its pass set out before that wipe and not every log up to its block
      has been replayed yet. */
  lemma StaleWriteIff(steps: seq<Step>, step: Step, chain: seq<Log>, startBlock: nat)
    requires ChainOk(chain) && StepsOk(steps, chain, startBlock) && NoneStray(FRESH, steps, chain)
    requires MovesCursor(After(FRESH, steps, chain), step)
    ensures
      var s := After(FRESH, steps, chain);
      var f := s.flights[step.id];
      !NothingMissing(Move(s, step, chain), chain, startBlock)
      <==> f.since < s.wipes && !Has(s.applied, Base(chain, startBlock), Upto(chain, f.phase.to))
  {
    NoLogPassedOver(steps, chain, startBlock);
    FreshIsOrdinary(chain, startBlock);
    RunTidy(FRESH, steps, chain, startBlock);
    StaleWriteHere(After(FRESH, steps, chain), step, chain, startBlock);
  }

  lemma StaleWriteHere(s: Machine, step: Step, chain: seq<Log>, startBlock: nat)
    requires Tidy(s, chain, startBlock) && Covered(s, chain, startBlock) && MovesCursor(s, step)
    ensures
      var f := s.flights[step.id];
      !NothingMissing(Move(s, step, chain), chain, startBlock)
      <==> f.since < s.wipes && !Has(s.applied, Base(chain, startBlock), Upto(chain, f.phase.to))
  {
    var f := s.flights[step.id];
    assert Shaped(f, chain, startBlock) && Covers(f, s.applied, s.wipes, chain, startBlock);
    var s' := Move(s, step, chain);
    assert s'.cursor == Some(f.phase.to) && s'.applied == s.applied;
  }

  // ---- what is behind such a cursor is lost ----

  /** The pass is at or past block `c`. */
  predicate Past(f: Flight, c: int, chain: seq<Log>)
  {
    && c <= f.from
    && match f.phase
       case Looking(cursor, _, _) => c <= cursor
       case Fetching(to) => f.from <= to
       case Scanning(to, next, hi) => c <= to && Upto(chain, c) <= next
       case Checked(to, next, hi) => c <= to && Upto(chain, c) <= next
       case Applied(to, next, hi) => c <= to && Upto(chain, c) <= next
       case Hashing(to) => c <= to
  }

  ghost predicate AllPast(s: Machine, c: int, chain: seq<Log>)
  {
    && s.cursor.Some? && c <= s.cursor.value
    && forall q :: q in s.flights ==> Past(s.flights[q], c, chain)
  }

  lemma ProceedPast(s: Machine, id: nat, f: Flight, c: int, chain: seq<Log>)
    requires AllPast(s, c, chain) && c <= f.from
    ensures AllPast(Proceed(s, id, f, chain), c, chain)
  {
  }

  lemma FlightPast(s: Machine, step: Step, f: Flight, c: int, chain: seq<Log>)
    requires ChainOk(chain) && AllPast(s, c, chain)
    requires !step.Die? && !step.Enter? && step.id in s.flights && f == s.flights[step.id]
    ensures MoveFlight(s, step, f, chain).wipes == s.wipes ==> AllPast(MoveFlight(s, step, f, chain), c, chain)
  {
    assert Past(f, c, chain);
    match step {
      case Look(id) =>
        if f.phase.Looking? && !Differ(f.phase.hash, f.pass.provider.hashAt(f.phase.cursor)) {
          ProceedPast(s, id, f.(from := f.phase.cursor), c, chain);
        }
      case Fetch(id) => UptoMonotone(chain, c, f.from);
      case WriteHash(id) =>
        if f.phase.Hashing? && f.chunks > 0 {
          ProceedPast(HashWritten(s, f), id, NextChunk(f), c, chain);
        }
      case _ =>
    }
  }

  lemma MovePast(s: Machine, step: Step, c: int, chain: seq<Log>)
    requires ChainOk(chain) && AllPast(s, c, chain) && Move(s, step, chain).wipes == s.wipes
    ensures AllPast(Move(s, step, chain), c, chain)
    ensures forall k: nat :: k < Upto(chain, c) ==> (k in Move(s, step, chain).applied <==> k in s.applied)
  {
    AppliedMoves(s, step, chain);
    if step.Enter? && step.id !in s.flights {
      ProceedPast(s, step.id, NewFlight(s, step.pass), c, chain);
    } else if !step.Die? && !step.Enter? && step.id in s.flights {
      assert Past(s.flights[step.id], c, chain);
      FlightPast(s, step, s.flights[step.id], c, chain);
    }
  }

  /** Once no pass is in flight, none ever comes back below the stored cursor: up to the
      next wipe a log there is applied later if and only if it is applied now. */
  lemma {:induction false} NeverReturns(s: Machine, steps: seq<Step>, chain: seq<Log>)
    requires ChainOk(chain) && s.flights == map[] && s.cursor.Some? && After(s, steps, chain).wipes == s.wipes
    ensures AllPast(After(s, steps, chain), s.cursor.value, chain)
    ensures forall k: nat :: k < Upto(chain, s.cursor.value) ==>
            (k in After(s, steps, chain).applied <==> k in s.applied)
  {
    if steps != [] {
      var n := |steps| - 1;
      WipesGrow(s, steps, n, chain);
      WipesGrow(s, steps[..n], 0, chain);
      assert steps[..n][..0] == [] && After(s, [], chain) == s;
      NeverReturns(s, steps[..n], chain);
      MovePast(After(s, steps[..n], chain), steps[n], s.cursor.value, chain);
    }
  }

  /** This log will not be applied before the next wipe, whatever passes come. */
  ghost predicate Lost(s: Machine, k: nat, chain: seq<Log>)
  {
    forall more: seq<Step> :: After(s, more, chain).wipes == s.wipes ==> k !in After(s, more, chain).applied
  }

  /** With no pass in flight: a log up to the stored cursor is lost if and only if it has
      not been applied since the last wipe. If no mark was stray, then the cursor is from
      before that wipe. */
  lemma LostIff(steps: seq<Step>, k: nat, chain: seq<Log>, startBlock: nat)
    requires ChainOk(chain) && StepsOk(steps, chain, startBlock)
    requires var s := After(FRESH, steps, chain);
      s.flights == map[] && s.cursor.Some? && Base(chain, startBlock) <= k < Upto(chain, s.cursor.value)
    ensures
      var s := After(FRESH, steps, chain);
      && (Lost(s, k, chain) <==> k !in s.applied)
      && (NoneStray(FRESH, steps, chain) && k !in s.applied ==> s.cursorSince < s.wipes)
  {
    var s := After(FRESH, steps, chain);
    if NoneStray(FRESH, steps, chain) {
      NoLogPassedOver(steps, chain, startBlock);
      FreshIsOrdinary(chain, startBlock);
      RunTidy(FRESH, steps, chain, startBlock);
    }
    assert After(s, [], chain) == s;
    forall more: seq<Step> | After(s, more, chain).wipes == s.wipes
      ensures k in After(s, more, chain).applied <==> k in s.applied
    {
      NeverReturns(s, more, chain);
    }
  }
}
