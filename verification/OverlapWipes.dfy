/** Wipes under overlapping passes: when the stored hash belongs to another block
    than the stored cursor, when a pass takes that for a reorg, and what that cannot
    do to the alerts. What a wipe in the middle of other passes can lose is in
    `OverlapMarks` and `OverlapHistory`. */
module OverlapWipes {

  import opened Parties
  import opened Alerts
  import opened IndexDb
  import opened ChainLogs
  import opened IndexTrail
  import opened IndexState
  import opened IndexHistory
  import opened Overlap
  import opened OverlapHistory
  import opened OverlapFolds

  // ---- cursor and hash ----

  /** The stored hash is missing, or was written for the stored cursor block. */
  predicate Aligned(s: Machine)
  {
    s.hash == 0 || s.hashOf == s.cursor
  }

  predicate Writes(s: Machine, step: Step)
  {
    step.WriteHash? && step.id in s.flights && s.flights[step.id].phase.Hashing? && s.flights[step.id].chunks > 0
  }

  /** What the node says of the block whose hash this step writes. */
  function Answer(s: Machine, step: Step): nat
    requires Writes(s, step)
  {
    s.flights[step.id].pass.provider.hashAt(s.flights[step.id].phase.to)
  }

  lemma CursorAndHashMove(s: Machine, step: Step, chain: seq<Log>)
    ensures
      var s' := Move(s, step, chain);
      && s'.cursor == (if MovesCursor(s, step) then Some(s.flights[step.id].phase.to) else s.cursor)
      && s'.hash == (if Writes(s, step) then Answer(s, step) else s.hash)
      && s'.hashOf == (if Writes(s, step) then Some(s.flights[step.id].phase.to) else s.hashOf)
  {
  }

  /** A hash write leaves cursor and hash aligned exactly when the node had no answer or
      the cursor this pass wrote is still the stored one; a cursor write exactly when the
      stored hash is missing or of that block; any other step leaves them as they were. */
  lemma AlignedStepIff(s: Machine, step: Step, chain: seq<Log>)
    ensures
      Aligned(Move(s, step, chain)) <==>
        if Writes(s, step) then Answer(s, step) == 0 || s.cursor == Some(s.flights[step.id].phase.to)
        else if MovesCursor(s, step) then s.hash == 0 || s.hashOf == Some(s.flights[step.id].phase.to)
        else Aligned(s)
  {
    CursorAndHashMove(s, step, chain);
  }

  // ---- wipes on a chain that never forked ----

  /** Every pass is started with a node that gives the one hash a block has, or none. */
  ghost predicate HonestRun(steps: seq<Step>, blockHash: int -> nat)
  {
    forall n :: 0 <= n < |steps| ==> HonestStep(steps[n], blockHash)
  }

  ghost predicate HonestStep(step: Step, blockHash: int -> nat)
  {
    step.Enter? ==> Honest(step.pass.provider, blockHash)
  }

  predicate HashFrom(hash: nat, hashOf: Option<int>, blockHash: int -> nat)
  {
    hash == 0 || (hashOf.Some? && hash == blockHash(hashOf.value))
  }

  /** Every hash in the store or in a pass's hands is that of the block history names. */
  ghost predicate HashesKnown(s: Machine, blockHash: int -> nat)
  {
    && HashFrom(s.hash, s.hashOf, blockHash)
    && forall q :: q in s.flights ==>
         && Honest(s.flights[q].pass.provider, blockHash)
         && (s.flights[q].phase.Looking? ==>
               HashFrom(s.flights[q].phase.hash, s.flights[q].phase.hashOf, blockHash))
  }

  /** The pass compares the hash of one block with that of another. */
  predicate Misread(s: Machine, step: Step)
  {
    && step.Look? && step.id in s.flights && s.flights[step.id].phase.Looking?
    && var p := s.flights[step.id].phase;
       s.flights[step.id].pass.provider.hashAt(p.cursor) != 0 && p.hash != 0 && p.hashOf != Some(p.cursor)
  }

  lemma ProceedHashes(s: Machine, id: nat, f: Flight, chain: seq<Log>, blockHash: int -> nat)
    requires HashesKnown(s, blockHash) && Honest(f.pass.provider, blockHash)
    ensures HashesKnown(Proceed(s, id, f, chain), blockHash)
    ensures Proceed(s, id, f, chain).wipes == s.wipes
  {
  }

  lemma LookHashes(s: Machine, id: nat, f: Flight, chain: seq<Log>, blockHash: int -> nat)
    requires HashesKnown(s, blockHash) && f.phase.Looking? && Honest(f.pass.provider, blockHash)
    ensures HashesKnown(Looked(s, id, f, chain), blockHash)
    ensures Looked(s, id, f, chain).wipes
         == s.wipes + (if Differ(f.phase.hash, f.pass.provider.hashAt(f.phase.cursor)) then 1 else 0)
  {
    ProceedHashes(s, id, f.(from := f.phase.cursor), chain, blockHash);
    ProceedHashes(Wiped(s, f.phase.cursor), id, StartOver(f, s.wipes + 1), chain, blockHash);
  }

  lemma FlightHashes(s: Machine, step: Step, f: Flight, chain: seq<Log>, blockHash: int -> nat)
    requires HashesKnown(s, blockHash)
    requires !step.Die? && !step.Enter? && step.id in s.flights && f == s.flights[step.id]
    ensures HashesKnown(MoveFlight(s, step, f, chain), blockHash)
    ensures MoveFlight(s, step, f, chain).wipes
         == s.wipes + (if step.Look? && f.phase.Looking?
                          && Differ(f.phase.hash, f.pass.provider.hashAt(f.phase.cursor)) then 1 else 0)
  {
    match step {
      case Look(id) =>
        if f.phase.Looking? {
          LookHashes(s, id, f, chain, blockHash);
        }
      case WriteHash(id) =>
        if f.phase.Hashing? && f.chunks > 0 {
          assert f.pass.provider.hashAt(f.phase.to) == 0 || f.pass.provider.hashAt(f.phase.to) == blockHash(f.phase.to);
          ProceedHashes(HashWritten(s, f), id, NextChunk(f), chain, blockHash);
        }
      case _ =>
    }
  }

  /** An honest answer differs from the hash in hand exactly when that is another block's. */
  lemma DifferIff(hash: nat, hashOf: Option<int>, cursor: int, answer: nat, blockHash: int -> nat)
    requires HashFrom(hash, hashOf, blockHash) && DistinctHashes(blockHash)
    requires answer == 0 || answer == blockHash(cursor)
    ensures Differ(hash, answer) <==> answer != 0 && hash != 0 && hashOf != Some(cursor)
  {
    if hash != 0 && answer != 0 && hashOf.value != cursor {
      assert blockHash(hashOf.value) != blockHash(cursor);
    }
  }

  /** On an unforked chain a step wipes if and only if it is a misread. */
  lemma WipeStepIff(s: Machine, step: Step, chain: seq<Log>, blockHash: int -> nat)
    requires HashesKnown(s, blockHash) && HonestStep(step, blockHash) && DistinctHashes(blockHash)
    ensures HashesKnown(Move(s, step, chain), blockHash)
    ensures Move(s, step, chain).wipes == s.wipes + (if Misread(s, step) then 1 else 0)
  {
    if step.Enter? && step.id !in s.flights {
      ProceedHashes(s, step.id, NewFlight(s, step.pass), chain, blockHash);
    } else if !step.Die? && !step.Enter? && step.id in s.flights {
      FlightHashes(s, step, s.flights[step.id], chain, blockHash);
      if step.Look? && s.flights[step.id].phase.Looking? {
        var p, node := s.flights[step.id].phase, s.flights[step.id].pass.provider;
        assert node.hashAt(p.cursor) == 0 || node.hashAt(p.cursor) == blockHash(p.cursor);
        DifferIff(p.hash, p.hashOf, p.cursor, node.hashAt(p.cursor), blockHash);
      }
    }
  }

  /** The pass waits for the node's answer, with the cursor and hash it found. */
  predicate Asking(s: Machine, id: nat, cursor: Option<int>, hash: nat, hashOf: Option<int>, p: Pass)
  {
    && cursor.Some? && cursor.value > 0
    && id in s.flights && s.flights[id].phase == Looking(cursor.value, hash, hashOf)
    && s.flights[id].pass.provider.hashAt(cursor.value) == p.provider.hashAt(cursor.value)
  }

  lemma {:induction false} StillAsking(s: Machine, id: nat, between: seq<Step>, chain: seq<Log>, cursor: Option<int>,
                                       hash: nat, hashOf: Option<int>, p: Pass)
    requires Asking(s, id, cursor, hash, hashOf, p)
    requires forall i :: 0 <= i < |between| ==> between[i] != Look(id) && !between[i].Die?
    ensures Asking(After(s, between, chain), id, cursor, hash, hashOf, p)
  {
    if between != [] {
      StillAsking(s, id, between[..|between| - 1], chain, cursor, hash, hashOf, p);
      AskingStep(After(s, between[..|between| - 1], chain), id, between[|between| - 1], chain, cursor, hash, hashOf, p);
    }
  }

  lemma AskingStep(s: Machine, id: nat, step: Step, chain: seq<Log>, cursor: Option<int>, hash: nat,
                   hashOf: Option<int>, p: Pass)
    requires Asking(s, id, cursor, hash, hashOf, p) && step != Look(id) && !step.Die?
    ensures Asking(Move(s, step, chain), id, cursor, hash, hashOf, p)
  {
  }

  /** A pass misreads if and only if cursor and hash were not aligned when it came in, and
      its node can give the cursor block; what others do meanwhile makes no difference. */
  lemma MisreadIff(s: Machine, id: nat, p: Pass, between: seq<Step>, chain: seq<Log>)
    requires id !in s.flights && s.cursor.Some? && s.cursor.value > 0
    requires forall i :: 0 <= i < |between| ==> between[i] != Look(id) && !between[i].Die?
    ensures Misread(After(Move(s, Enter(id, p), chain), between, chain), Look(id))
       <==> !Aligned(s) && p.provider.hashAt(s.cursor.value) != 0
  {
    StillAsking(Move(s, Enter(id, p), chain), id, between, chain, s.cursor, s.hash, s.hashOf, p);
  }

  predicate MisreadAt(steps: seq<Step>, n: nat, chain: seq<Log>)
    requires n < |steps|
  {
    Misread(After(FRESH, steps[..n], chain), steps[n])
  }

  lemma {:induction false} RunHashes(steps: seq<Step>, n: nat, chain: seq<Log>, blockHash: int -> nat)
    requires HonestRun(steps, blockHash) && DistinctHashes(blockHash) && n <= |steps|
    ensures HashesKnown(After(FRESH, steps[..n], chain), blockHash)
  {
    if n > 0 {
      RunHashes(steps, n - 1, chain, blockHash);
      AfterTake(FRESH, steps, n - 1, chain);
      assert HonestStep(steps[n - 1], blockHash);
      WipeStepIff(After(FRESH, steps[..n - 1], chain), steps[n - 1], chain, blockHash);
    }
  }

  lemma WipesNext(steps: seq<Step>, n: nat, chain: seq<Log>, blockHash: int -> nat)
    requires HonestRun(steps, blockHash) && DistinctHashes(blockHash) && n < |steps|
    ensures After(FRESH, steps[..n + 1], chain).wipes
         == After(FRESH, steps[..n], chain).wipes + (if MisreadAt(steps, n, chain) then 1 else 0)
  {
    AfterTake(FRESH, steps, n, chain);
    RunHashes(steps, n, chain, blockHash);
    assert HonestStep(steps[n], blockHash);
    WipeStepIff(After(FRESH, steps[..n], chain), steps[n], chain, blockHash);
  }

  ghost predicate NoMisread(steps: seq<Step>, n: nat, chain: seq<Log>)
    requires n <= |steps|
  {
    forall m: nat :: m < n ==> !MisreadAt(steps, m, chain)
  }

  lemma NoMisreadNext(steps: seq<Step>, n: nat, chain: seq<Log>)
    requires n < |steps|
    ensures NoMisread(steps, n + 1, chain) <==> NoMisread(steps, n, chain) && !MisreadAt(steps, n, chain)
  {
  }

  ghost predicate NoWipesBy(steps: seq<Step>, n: nat, chain: seq<Log>)
    requires n <= |steps|
  {
    After(FRESH, steps[..n], chain).wipes == 0 <==> NoMisread(steps, n, chain)
  }

  lemma NoWipesNext(steps: seq<Step>, n: nat, chain: seq<Log>, blockHash: int -> nat)
    requires HonestRun(steps, blockHash) && DistinctHashes(blockHash) && n < |steps| && NoWipesBy(steps, n, chain)
    ensures NoWipesBy(steps, n + 1, chain)
  {
    WipesNext(steps, n, chain, blockHash);
    NoMisreadNext(steps, n, chain);
  }

  lemma {:induction false} NoWipesUpTo(steps: seq<Step>, n: nat, chain: seq<Log>, blockHash: int -> nat)
    requires HonestRun(steps, blockHash) && DistinctHashes(blockHash) && n <= |steps|
    ensures NoWipesBy(steps, n, chain)
  {
    if n > 0 {
      NoWipesUpTo(steps, n - 1, chain, blockHash);
      NoWipesNext(steps, n - 1, chain, blockHash);
    }
  }

  /** Over all interleavings and deaths: a chain that never forked is never wiped if
      and only if no pass compares the hash stored for one block with that of another. */
  lemma NeverWipedIff(steps: seq<Step>, chain: seq<Log>, blockHash: int -> nat)
    requires HonestRun(steps, blockHash) && DistinctHashes(blockHash)
    ensures After(FRESH, steps, chain).wipes == 0 <==> forall n: nat :: n < |steps| ==> !MisreadAt(steps, n, chain)
  {
    NoWipesUpTo(steps, |steps|, chain, blockHash);
    assert steps[..|steps|] == steps;
  }

  /** So on a chain that never forked, with honest nodes: if no pass misreads a hash and none
      is late, the tables are one fold of the chain, of at least the logs up to the cursor. */
  lemma UnforkedIsOneFold(steps: seq<Step>, chain: seq<Log>, startBlock: nat, blockHash: int -> nat)
    requires ChainOk(chain) && StepsOk(steps, chain, startBlock)
    requires HonestRun(steps, blockHash) && DistinctHashes(blockHash)
    requires forall n: nat :: n < |steps| ==> !MisreadAt(steps, n, chain) && !LateAt(FRESH, steps, n, chain)
    ensures var s := After(FRESH, steps, chain);
      s.wipes == 0 && s.seed == NO_TABLES && s.cursorSince == 0 && OneFold(s, chain, startBlock)
  {
    NeverWipedIff(steps, chain, blockHash);
    UnwipedIsOneFold(steps, chain, startBlock);
  }

  // ---- alerts ----

  lemma TrimmedAlerts(s: Machine, opts: PollOptions, chain: seq<Log>)
    requires AlertsFine(s.alerts)
    ensures AlertsFine(Trimmed(s, opts, chain).alerts)
  {
    if opts.alertsKeep > 0 {
      FilterValid(s.alerts, Retained(s.alerts.rows, opts.alertsKeep, opts.deliveredUpTo));
    }
  }

  lemma ProceedAlerts(s: Machine, id: nat, f: Flight, chain: seq<Log>)
    requires AlertsFine(s.alerts)
    ensures AlertsFine(Proceed(s, id, f, chain).alerts)
  {
    TrimmedAlerts(s, f.pass.opts, chain);
  }

  lemma FlightAlerts(s: Machine, step: Step, f: Flight, chain: seq<Log>)
    requires AlertsFine(s.alerts) && !step.Die? && !step.Enter?
    ensures AlertsFine(MoveFlight(s, step, f, chain).alerts)
  {
    match step {
      case Look(id) =>
        if f.phase.Looking? {
          FilterValid(s.alerts, (r: Alert) => r.blockNumber < f.phase.cursor);
          ProceedAlerts(Wiped(s, f.phase.cursor), id, StartOver(f, s.wipes + 1), chain);
          ProceedAlerts(s, id, f.(from := f.phase.cursor), chain);
        }
      case Apply(id) =>
        if f.phase.Checked? && f.phase.next < |chain| {
          var log := chain[f.phase.next];
          if AlertKind(log.event).Some? {
            RecordValid(s.alerts, AlertKind(log.event).value, log.block, log.key.tx);
          }
        }
      case WriteHash(id) =>
        if f.phase.Hashing? && f.chunks > 0 {
          ProceedAlerts(HashWritten(s, f), id, NextChunk(f), chain);
        }
      case _ =>
    }
  }

  /** In every interleaving, wipes and logs applied twice included, no two stored alerts
      have the same transaction, kind and block. */
  lemma {:induction false} AlertsUniqueInEveryRun(steps: seq<Step>, chain: seq<Log>)
    ensures AlertsFine(After(FRESH, steps, chain).alerts)
  {
    if steps != [] {
      var s, step := After(FRESH, steps[..|steps| - 1], chain), steps[|steps| - 1];
      AlertsUniqueInEveryRun(steps[..|steps| - 1], chain);
      if step.Enter? && step.id !in s.flights {
        ProceedAlerts(s, step.id, NewFlight(s, step.pass), chain);
      } else if !step.Die? && !step.Enter? && step.id in s.flights {
        FlightAlerts(s, step, s.flights[step.id], chain);
      }
    }
  }
}
