/** The tables of overlapping passes, wipes included: when they are one fold, in order,
    of the logs applied since the last wipe. */
module OverlapFolds {

  import opened Parties
  import opened IndexDb
  import opened ChainLogs
  import opened IndexTrail
  import opened Overlap
  import opened OverlapHistory

  /** The logs from the start block on, in order, each once. */
  ghost predicate InOrder(s: Machine, base: nat)
  {
    forall i :: 0 <= i < |s.applied| ==> s.applied[i] == base + i
  }

  /** This step applies a log although one before it has not been applied. */
  ghost predicate Ahead(s: Machine, step: Step, base: nat)
  {
    && step.Apply? && step.id in s.flights && s.flights[step.id].phase.Checked?
    && !Has(s.applied, base, s.flights[step.id].phase.next)
  }

  ghost predicate AheadAt(s: Machine, steps: seq<Step>, n: nat, chain: seq<Log>, startBlock: nat)
    requires n < |steps|
  {
    Ahead(After(s, steps[..n], chain), steps[n], Base(chain, startBlock))
  }

  /** Only a pass from before the last wipe gets ahead of the replay. */
  lemma AheadWhy(steps: seq<Step>, step: Step, chain: seq<Log>, startBlock: nat)
    requires ChainOk(chain) && StepsOk(steps, chain, startBlock) && NoneStray(FRESH, steps, chain)
    requires Ahead(After(FRESH, steps, chain), step, Base(chain, startBlock))
    ensures var s := After(FRESH, steps, chain);
      s.flights[step.id].since < s.wipes
  {
    var s := After(FRESH, steps, chain);
    NoLogPassedOver(steps, chain, startBlock);
    FreshIsOrdinary(chain, startBlock);
    RunTidy(FRESH, steps, chain, startBlock);
    assert Covers(s.flights[step.id], s.applied, s.wipes, chain, startBlock);
  }

  /** Applying the next log, and no other, keeps the order. */
  lemma InOrderStep(s: Machine, step: Step, chain: seq<Log>, startBlock: nat)
    requires Tidy(s, chain, startBlock) && Knows(s, chain) && InOrder(s, Base(chain, startBlock))
    ensures InOrder(Move(s, step, chain), Base(chain, startBlock))
       <==> !Late(s, step) && !Ahead(s, step, Base(chain, startBlock))
  {
    AppliedMoves(s, step, chain);
    if step.Apply? && step.id in s.flights && s.flights[step.id].phase.Checked? {
      var f := s.flights[step.id];
      assert Shaped(f, chain, startBlock);
      NextInOrder(s.applied, f.phase.next, Base(chain, startBlock));
      OneMoreInOrder(s, Move(s, step, chain), f.phase.next, Base(chain, startBlock));
    }
  }

  lemma OneMoreInOrder(s: Machine, s': Machine, k: nat, base: nat)
    requires InOrder(s, base) && s'.applied == s.applied + [k]
    ensures InOrder(s', base) <==> k == base + |s.applied|
  {
    assert s'.applied[|s.applied|] == k && forall i :: 0 <= i < |s.applied| ==> s'.applied[i] == s.applied[i];
  }

  lemma NextInOrder(applied: seq<nat>, k: nat, base: nat)
    requires base <= k && forall i :: 0 <= i < |applied| ==> applied[i] == base + i
    ensures k !in applied && Has(applied, base, k) <==> k == base + |applied|
  {
    assert base + |applied| !in applied;
    if k < base + |applied| {
      assert applied[k - base] == k;
    }
    if k == base + |applied| {
      forall j: nat | base <= j < k
        ensures j in applied
      {
        assert applied[j - base] == j;
      }
    }
  }

  ghost predicate InOrderAt(s: Machine, steps: seq<Step>, n: nat, chain: seq<Log>, startBlock: nat)
    requires n <= |steps|
  {
    InOrder(After(s, steps[..n], chain), Base(chain, startBlock))
  }

  /** This step breaks the order of the replay. */
  ghost predicate BreaksAt(s: Machine, steps: seq<Step>, n: nat, chain: seq<Log>, startBlock: nat)
    requires n < |steps|
  {
    LateAt(s, steps, n, chain) || AheadAt(s, steps, n, chain, startBlock)
  }

  lemma InOrderNext(s: Machine, steps: seq<Step>, n: nat, chain: seq<Log>, startBlock: nat)
    requires ChainOk(chain) && StepsOk(steps, chain, startBlock) && Ordinary(s, chain, startBlock)
    requires n < |steps| && InOrderAt(s, steps, n, chain, startBlock)
    ensures InOrderAt(s, steps, n + 1, chain, startBlock) <==> !BreaksAt(s, steps, n, chain, startBlock)
  {
    AfterTake(s, steps, n, chain);
    RunOrdinary(s, steps[..n], chain, startBlock);
    InOrderStep(After(s, steps[..n], chain), steps[n], chain, startBlock);
  }

  lemma {:induction false} InOrderUpTo(s: Machine, steps: seq<Step>, n: nat, chain: seq<Log>, startBlock: nat)
    requires ChainOk(chain) && StepsOk(steps, chain, startBlock) && Ordinary(s, chain, startBlock)
    requires n <= |steps| && InOrder(s, Base(chain, startBlock))
    requires forall i: nat :: i < n ==> !BreaksAt(s, steps, i, chain, startBlock)
    ensures InOrderAt(s, steps, n, chain, startBlock)
  {
    if n > 0 {
      InOrderUpTo(s, steps, n - 1, chain, startBlock);
      InOrderNext(s, steps, n - 1, chain, startBlock);
    }
  }

  /** Over all interleavings with any wipes, failures and deaths: after every step the logs
      applied since the last wipe are those from the start block on, in order, each once, if
      and only if no step applies a log late or ahead of the replay. */
  lemma OneFoldThroughoutIff(steps: seq<Step>, chain: seq<Log>, startBlock: nat)
    requires ChainOk(chain) && StepsOk(steps, chain, startBlock)
    ensures (forall n: nat :: n <= |steps| ==> InOrderAt(FRESH, steps, n, chain, startBlock))
       <==> (forall n: nat :: n < |steps| ==> !BreaksAt(FRESH, steps, n, chain, startBlock))
  {
    FreshIsOrdinary(chain, startBlock);
    if forall n: nat :: n < |steps| ==> !BreaksAt(FRESH, steps, n, chain, startBlock) {
      forall n: nat | n <= |steps|
        ensures InOrderAt(FRESH, steps, n, chain, startBlock)
      {
        InOrderUpTo(FRESH, steps, n, chain, startBlock);
      }
    }
    if forall n: nat :: n <= |steps| ==> InOrderAt(FRESH, steps, n, chain, startBlock) {
      forall n: nat | n < |steps|
        ensures !BreaksAt(FRESH, steps, n, chain, startBlock)
      {
        assert InOrderAt(FRESH, steps, n, chain, startBlock) && InOrderAt(FRESH, steps, n + 1, chain, startBlock);
        InOrderNext(FRESH, steps, n, chain, startBlock);
      }
    }
  }

  // ---- the tables ----

  /** The logs applied, in the order they were. */
  function Picked(chain: seq<Log>, applied: seq<nat>): seq<Log>
  {
    if applied == [] then []
    else
      var k := applied[|applied| - 1];
      Picked(chain, applied[..|applied| - 1]) + (if k < |chain| then [chain[k]] else [])
  }

  /** The tables are the fold of what was applied over what the last wipe left. */
  ghost predicate Folded(s: Machine, chain: seq<Log>)
  {
    s.tables == Fold(s.seed, Picked(chain, s.applied))
  }

  lemma TakenFolded(s: Machine, id: nat, f: Flight, chain: seq<Log>)
    requires Folded(s, chain) && f.phase.Checked? && f.phase.next < |chain|
    ensures Folded(Taken(s, id, f, chain), chain)
  {
    var k := f.phase.next;
    assert (s.applied + [k])[..|s.applied|] == s.applied;
    var logs := Picked(chain, s.applied);
    assert (logs + [chain[k]])[..|logs|] == logs;
  }

  lemma TablesMove(s: Machine, step: Step, chain: seq<Log>)
    requires !(step.Apply? && step.id in s.flights && s.flights[step.id].phase.Checked?)
    ensures var s' := Move(s, step, chain);
      if s'.wipes == s.wipes then s'.tables == s.tables && s'.applied == s.applied && s'.seed == s.seed
      else s'.tables == s'.seed == Reset(s.tables) && s'.applied == []
  {
  }

  lemma MoveFolded(s: Machine, step: Step, chain: seq<Log>)
    requires Folded(s, chain)
    ensures Folded(Move(s, step, chain), chain)
  {
    if step.Apply? && step.id in s.flights && s.flights[step.id].phase.Checked? {
      if s.flights[step.id].phase.next < |chain| {
        TakenFolded(s, step.id, s.flights[step.id], chain);
      }
    } else {
      TablesMove(s, step, chain);
    }
  }

  /** In every interleaving the tables are the fold of the logs applied since the last
      wipe, in the order they were, over what that wipe left. */
  lemma {:induction false} RunFolded(s: Machine, steps: seq<Step>, chain: seq<Log>)
    requires Folded(s, chain)
    ensures Folded(After(s, steps, chain), chain)
  {
    if steps != [] {
      RunFolded(s, steps[..|steps| - 1], chain);
      MoveFolded(After(s, steps[..|steps| - 1], chain), steps[|steps| - 1], chain);
    }
  }

  lemma {:induction false} PickedInOrder(chain: seq<Log>, applied: seq<nat>, base: nat)
    requires base + |applied| <= |chain| && forall i :: 0 <= i < |applied| ==> applied[i] == base + i
    ensures Picked(chain, applied) == Cut(chain, base, base + |applied|)
  {
    if applied != [] {
      var n := |applied| - 1;
      PickedInOrder(chain, applied[..n], base);
      assert Cut(chain, base, base + n) + [chain[base + n]] == Cut(chain, base, base + n + 1);
    }
  }

  /** The tables are the fold, over what the last wipe left, of as many logs as have been
      applied since, and at least of those up to a cursor of this replay. */
  ghost predicate OneFold(s: Machine, chain: seq<Log>, startBlock: nat)
  {
    var base, hi := Base(chain, startBlock), Base(chain, startBlock) + |s.applied|;
    && hi <= |chain| && s.tables == Fold(s.seed, Cut(chain, base, hi))
    && (s.cursor.Some? && s.cursorSince == s.wipes ==> Upto(chain, s.cursor.value) <= hi)
  }

  lemma InOrderTables(s: Machine, chain: seq<Log>, startBlock: nat)
    requires Tidy(s, chain, startBlock) && CursorCovers(s, chain, startBlock)
    requires InOrder(s, Base(chain, startBlock)) && Folded(s, chain)
    ensures OneFold(s, chain, startBlock)
  {
    var base := Base(chain, startBlock);
    if s.applied != [] {
      assert s.applied[|s.applied| - 1] in s.applied;
    }
    PickedInOrder(chain, s.applied, base);
    assert base + |s.applied| !in s.applied;
  }

  /** Nothing late, nothing ahead, no stray mark. */
  ghost predicate Orderly(s: Machine, steps: seq<Step>, chain: seq<Log>, startBlock: nat)
  {
    NoneStray(s, steps, chain) && forall n: nat :: n < |steps| ==> !BreaksAt(s, steps, n, chain, startBlock)
  }

  /** A machine from which a replay may be followed. */
  ghost predicate Ready(s: Machine, chain: seq<Log>, startBlock: nat)
  {
    && Ordinary(s, chain, startBlock) && Reliable(s, chain, startBlock)
    && InOrder(s, Base(chain, startBlock)) && Folded(s, chain)
  }

  lemma OrderlyIsOneFold(s: Machine, steps: seq<Step>, chain: seq<Log>, startBlock: nat)
    requires ChainOk(chain) && StepsOk(steps, chain, startBlock)
    requires Ready(s, chain, startBlock) && Orderly(s, steps, chain, startBlock)
    ensures OneFold(After(s, steps, chain), chain, startBlock)
  {
    assert steps[..|steps|] == steps;
    InOrderUpTo(s, steps, |steps|, chain, startBlock);
    RunFolded(s, steps, chain);
    RunReliable(s, steps, |steps|, chain, startBlock);
    RunTidy(s, steps, chain, startBlock);
    InOrderTables(After(s, steps, chain), chain, startBlock);
  }

  /** So from a fresh index the tables are one fold of the chain since the last wipe. */
  lemma InOrderIsOneFold(steps: seq<Step>, chain: seq<Log>, startBlock: nat)
    requires ChainOk(chain) && StepsOk(steps, chain, startBlock) && Orderly(FRESH, steps, chain, startBlock)
    ensures OneFold(After(FRESH, steps, chain), chain, startBlock)
  {
    FreshIsOrdinary(chain, startBlock);
    OrderlyIsOneFold(FRESH, steps, chain, startBlock);
  }

  /** With no wipe nothing is ahead and no mark is stray. */
  lemma UnwipedIsOneFold(steps: seq<Step>, chain: seq<Log>, startBlock: nat)
    requires ChainOk(chain) && StepsOk(steps, chain, startBlock) && After(FRESH, steps, chain).wipes == 0
    requires forall n: nat :: n < |steps| ==> !LateAt(FRESH, steps, n, chain)
    ensures var s := After(FRESH, steps, chain);
      s.seed == NO_TABLES && s.cursorSince == 0 && OneFold(s, chain, startBlock)
  {
    UnwipedPassesNothingOver(steps, chain, startBlock);
    forall n: nat | n < |steps|
      ensures !AheadAt(FRESH, steps, n, chain, startBlock)
    {
      NotAheadUnwiped(steps, n, chain, startBlock);
    }
    InOrderIsOneFold(steps, chain, startBlock);
    FreshIsOrdinary(chain, startBlock);
    RunTidy(FRESH, steps, chain, startBlock);
    UnwipedSeed(steps, chain);
  }

  lemma NotAheadUnwiped(steps: seq<Step>, n: nat, chain: seq<Log>, startBlock: nat)
    requires ChainOk(chain) && StepsOk(steps, chain, startBlock) && After(FRESH, steps, chain).wipes == 0
    requires n < |steps| && NoneStray(FRESH, steps, chain)
    ensures !AheadAt(FRESH, steps, n, chain, startBlock)
  {
    var s := After(FRESH, steps[..n], chain);
    WipesGrow(FRESH, steps, n, chain);
    FreshIsOrdinary(chain, startBlock);
    RunReliable(FRESH, steps, n, chain, startBlock);
    RunTidy(FRESH, steps[..n], chain, startBlock);
    if steps[n].Apply? && steps[n].id in s.flights {
      assert Covers(s.flights[steps[n].id], s.applied, s.wipes, chain, startBlock);
      assert s.flights[steps[n].id].since <= s.wipes;
    }
  }

  lemma {:induction false} UnwipedSeed(steps: seq<Step>, chain: seq<Log>)
    requires After(FRESH, steps, chain).wipes == 0
    ensures After(FRESH, steps, chain).seed == NO_TABLES
  {
    if steps != [] {
      var n := |steps| - 1;
      var s := After(FRESH, steps[..n], chain);
      AppliedMoves(s, steps[n], chain);
      UnwipedSeed(steps[..n], chain);
      SeedMoves(s, steps[n], chain);
    }
  }

  lemma SeedMoves(s: Machine, step: Step, chain: seq<Log>)
    ensures Move(s, step, chain).wipes == s.wipes ==> Move(s, step, chain).seed == s.seed
  {
  }

  // ---- a guard the process could check ----

  /** While no mark is stray, applying a log whose marker is not lost is late exactly when at
      that moment the log carries a marker, or a pass stands between having applied it since
      the last wipe and marking it. */
  lemma LateIsVisible(steps: seq<Step>, id: nat, chain: seq<Log>, startBlock: nat)
    requires ChainOk(chain) && StepsOk(steps, chain, startBlock) && NoneStray(FRESH, steps, chain)
    requires var s := After(FRESH, steps, chain);
      id in s.flights && s.flights[id].phase.Checked? && s.flights[id].phase.next !in s.forgotten
    ensures
      var s := After(FRESH, steps, chain);
      var k := s.flights[id].phase.next;
      k < |chain| && (Late(s, Apply(id)) <==> chain[k].key in s.markers || k in HeldSince(s.flights, s.wipes))
  {
    FreshIsOrdinary(chain, startBlock);
    RunOrdinary(FRESH, steps, chain, startBlock);
    NoLogPassedOver(steps, chain, startBlock);
  }
}
