/** Marks under overlapping passes: a wipe may take back a log that a pass has
    applied and not yet marked, and the mark then stands for nothing. */
module OverlapMarks {

  import opened IndexDb
  import opened ChainLogs
  import opened Overlap

  /** Whatever carries a marker has been applied since the last wipe. */
  ghost predicate Sound(s: Machine, chain: seq<Log>)
  {
    forall k :: 0 <= k < |chain| && chain[k].key in s.markers ==> k in s.applied
  }

  /** This step marks a log that has not been applied since the last wipe. */
  predicate Stray(s: Machine, step: Step)
  {
    && step.Mark? && step.id in s.flights && s.flights[step.id].phase.Applied?
    && s.flights[step.id].phase.next !in s.applied
  }

  lemma MarkersMove(s: Machine, step: Step, chain: seq<Log>)
    requires !step.Mark?
    ensures Move(s, step, chain).wipes == s.wipes ==>
              forall key :: key in Move(s, step, chain).markers ==> key in s.markers
    ensures Move(s, step, chain).wipes != s.wipes ==> Move(s, step, chain).markers == map[]
  {
  }

  /** Marks stay sound exactly while no step is stray. */
  lemma SoundStep(s: Machine, step: Step, chain: seq<Log>)
    requires ChainOk(chain) && Sound(s, chain)
    requires forall q :: q in s.flights && s.flights[q].phase.Applied? ==> s.flights[q].phase.next < |chain|
    ensures Sound(Move(s, step, chain), chain) <==> !Stray(s, step)
  {
    AppliedMoves(s, step, chain);
    if step.Mark? {
      if step.id in s.flights && s.flights[step.id].phase.Applied? {
        NotedSound(s, step.id, s.flights[step.id], chain);
      }
    } else {
      MarkersMove(s, step, chain);
    }
  }

  lemma NotedSound(s: Machine, id: nat, f: Flight, chain: seq<Log>)
    requires ChainOk(chain) && Sound(s, chain) && f.phase.Applied? && f.phase.next < |chain|
    ensures Sound(Noted(s, id, f, chain), chain) <==> f.phase.next in s.applied
  {
    assert chain[f.phase.next].key in Noted(s, id, f, chain).markers;
  }

  /** What a pass holds lies on the chain, and has been applied unless a wipe came since. */
  ghost predicate HandsKnown(s: Machine, chain: seq<Log>)
  {
    forall q :: q in s.flights && s.flights[q].phase.Applied? ==>
      && s.flights[q].phase.next < |chain| && s.flights[q].epoch <= s.wipes
      && (s.flights[q].epoch == s.wipes ==> s.flights[q].phase.next in s.applied)
  }

  lemma MoveHands(s: Machine, step: Step, chain: seq<Log>)
    requires HandsKnown(s, chain)
    ensures HandsKnown(Move(s, step, chain), chain)
  {
    AppliedMoves(s, step, chain);
    if step.Apply? && step.id in s.flights && s.flights[step.id].phase.Checked? {
      if s.flights[step.id].phase.next < |chain| {
        TakenHands(s, step.id, s.flights[step.id], chain);
      }
    } else {
      HandsMove(s, step, chain);
    }
  }

  lemma TakenHands(s: Machine, id: nat, f: Flight, chain: seq<Log>)
    requires HandsKnown(s, chain) && f.phase.Checked? && f.phase.next < |chain|
    ensures HandsKnown(Taken(s, id, f, chain), chain)
  {
    var s' := Taken(s, id, f, chain);
    forall q | q in s'.flights && s'.flights[q].phase.Applied?
      ensures s'.flights[q].phase.next < |chain| && s'.flights[q].epoch <= s'.wipes
      ensures s'.flights[q].epoch == s'.wipes ==> s'.flights[q].phase.next in s'.applied
    {
      if q != id {
        assert q in s.flights && s'.flights[q] == s.flights[q];
      }
    }
  }

  /** What the passes hold in one state they held in the other. */
  ghost predicate HeldBefore(now: map<nat, Flight>, before: map<nat, Flight>)
  {
    forall q :: q in now && now[q].phase.Applied? ==>
      q in before && now[q].phase == before[q].phase && now[q].epoch == before[q].epoch
  }

  lemma ProceedHands(s: Machine, id: nat, f: Flight, chain: seq<Log>)
    ensures HeldBefore(Proceed(s, id, f, chain).flights, s.flights)
  {
  }

  lemma LookHands(s: Machine, id: nat, f: Flight, chain: seq<Log>)
    requires f.phase.Looking?
    ensures HeldBefore(Looked(s, id, f, chain).flights, s.flights)
  {
    ProceedHands(s, id, f.(from := f.phase.cursor), chain);
    ProceedHands(Wiped(s, f.phase.cursor), id, StartOver(f, s.wipes + 1), chain);
  }

  lemma FlightHands(s: Machine, step: Step, f: Flight, chain: seq<Log>)
    requires !step.Die? && !step.Enter? && step.id in s.flights && f == s.flights[step.id]
    requires !(step.Apply? && f.phase.Checked?)
    ensures HeldBefore(MoveFlight(s, step, f, chain).flights, s.flights)
  {
    match step {
      case Look(id) =>
        if f.phase.Looking? {
          LookHands(s, id, f, chain);
        }
      case WriteHash(id) =>
        if f.phase.Hashing? && f.chunks > 0 {
          ProceedHands(HashWritten(s, f), id, NextChunk(f), chain);
        }
      case _ =>
    }
  }

  /** Only `Apply` puts a log into a pass's hand. */
  lemma HandsMove(s: Machine, step: Step, chain: seq<Log>)
    requires !(step.Apply? && step.id in s.flights && s.flights[step.id].phase.Checked?)
    ensures HeldBefore(Move(s, step, chain).flights, s.flights)
  {
    if step.Enter? {
      ProceedHands(s, step.id, NewFlight(s, step.pass), chain);
    } else if !step.Die? && step.id in s.flights {
      FlightHands(s, step, s.flights[step.id], chain);
    }
  }

  lemma {:induction false} RunHands(s: Machine, steps: seq<Step>, chain: seq<Log>)
    requires HandsKnown(s, chain)
    ensures HandsKnown(After(s, steps, chain), chain)
  {
    if steps != [] {
      RunHands(s, steps[..|steps| - 1], chain);
      MoveHands(After(s, steps[..|steps| - 1], chain), steps[|steps| - 1], chain);
    }
  }

  ghost predicate SoundAt(steps: seq<Step>, n: nat, chain: seq<Log>)
    requires n <= |steps|
  {
    Sound(After(FRESH, steps[..n], chain), chain)
  }

  predicate StrayAt(s: Machine, steps: seq<Step>, n: nat, chain: seq<Log>)
    requires n < |steps|
  {
    Stray(After(s, steps[..n], chain), steps[n])
  }

  lemma SoundNext(steps: seq<Step>, n: nat, chain: seq<Log>)
    requires ChainOk(chain) && n < |steps| && SoundAt(steps, n, chain)
    ensures SoundAt(steps, n + 1, chain) <==> !StrayAt(FRESH, steps, n, chain)
  {
    AfterTake(FRESH, steps, n, chain);
    RunHands(FRESH, steps[..n], chain);
    SoundStep(After(FRESH, steps[..n], chain), steps[n], chain);
  }

  lemma {:induction false} SoundUpTo(steps: seq<Step>, n: nat, chain: seq<Log>)
    requires ChainOk(chain) && n <= |steps| && forall i: nat :: i < n ==> !StrayAt(FRESH, steps, i, chain)
    ensures SoundAt(steps, n, chain)
  {
    if n > 0 {
      SoundUpTo(steps, n - 1, chain);
      SoundNext(steps, n - 1, chain);
    }
  }

  /** Over all interleavings, wipes included: after every step only logs applied since
      the last wipe carry a marker, if and only if no pass marks a log that a wipe has
      taken back from it. A log marked so is never applied again. */
  lemma SoundThroughoutIff(steps: seq<Step>, chain: seq<Log>)
    requires ChainOk(chain)
    ensures (forall n: nat :: n <= |steps| ==> SoundAt(steps, n, chain))
       <==> (forall n: nat :: n < |steps| ==> !StrayAt(FRESH, steps, n, chain))
  {
    if forall n: nat :: n < |steps| ==> !StrayAt(FRESH, steps, n, chain) {
      forall n: nat | n <= |steps|
        ensures SoundAt(steps, n, chain)
      {
        SoundUpTo(steps, n, chain);
      }
    }
    if forall n: nat :: n <= |steps| ==> SoundAt(steps, n, chain) {
      forall n: nat | n < |steps|
        ensures !StrayAt(FRESH, steps, n, chain)
      {
        assert SoundAt(steps, n, chain) && SoundAt(steps, n + 1, chain);
        SoundNext(steps, n, chain);
      }
    }
  }

  /** A stray mark means that a wipe came between applying the log and marking it. */
  lemma StrayWhy(steps: seq<Step>, step: Step, chain: seq<Log>)
    requires Stray(After(FRESH, steps, chain), step)
    ensures var s := After(FRESH, steps, chain); s.flights[step.id].epoch < s.wipes
  {
    RunHands(FRESH, steps, chain);
  }
}
