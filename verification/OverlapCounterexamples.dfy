/** Runs of overlapping passes, each from a fresh index over a chain that never
    forks, with honest nodes, and with no process dying. The process waits for its
    first pass before it starts the timer, so each run begins with a pass that ends
    by itself, before there is anything to index. */
module OverlapCounterexamples {

  import opened Parties
  import opened Arithmetic
  import opened Alerts
  import opened IndexDb
  import opened ChainLogs
  import opened IndexTrail
  import opened IndexerCounterexamples
  import opened Overlap
  import opened OverlapMarks
  import opened OverlapWipes

  lemma AfterThree(s: Machine, a: Step, b: Step, c: Step, chain: seq<Log>)
    ensures After(s, [a, b, c], chain) == Move(Move(Move(s, a, chain), b, chain), c, chain)
  {
    assert [a, b, c][..2] == [a, b] && [a, b][..1] == [a] && [a][..0] == [];
    assert After(s, [], chain) == s;
    assert After(s, [a], chain) == Move(s, a, chain);
    assert After(s, [a, b], chain) == Move(After(s, [a], chain), b, chain);
  }

  lemma AfterTwo(s: Machine, a: Step, b: Step, chain: seq<Log>)
    ensures After(s, [a, b], chain) == Move(Move(s, a, chain), b, chain)
  {
    assert [a, b][..1] == [a] && [a][..0] == [];
    assert After(s, [], chain) == s;
    assert After(s, [a], chain) == Move(s, a, chain);
  }

  lemma {:induction false} AfterBoth(s: Machine, a: seq<Step>, b: seq<Step>, chain: seq<Log>)
    ensures After(s, a + b, chain) == After(After(s, a, chain), b, chain)
  {
    if b == [] {
      assert a + b == a;
    } else {
      var c := b[..|b| - 1];
      AfterBoth(s, a, c, chain);
      assert (a + b)[..|a + b| - 1] == a + c;
    }
  }

  /** A pass over a chain with no block to index yet. */
  function NothingYet(chain: seq<Log>, opts: PollOptions): Step
  {
    Enter(9, Pass(NodeOf(chain, 0, -1), opts, None))
  }

  lemma NothingYetIsNothing(chain: seq<Log>, opts: PollOptions)
    requires opts.startBlock == 1 && opts.alertsKeep <= 0
    ensures Move(FRESH, NothingYet(chain, opts), chain) == FRESH
  {
    assert {} + Forgets(FRESH, map[], chain) == {};
    assert RecentMarkers(map[], opts.startBlock, opts.markerBlocks) == map[];
  }

  /** The first pass ends alone; nodes are right about the chain and honest; and nothing
      dies or fails. */
  ghost predicate Peaceful(steps: seq<Step>, chain: seq<Log>)
  {
    && steps != [] && steps[0].Enter? && Move(FRESH, steps[0], chain).flights == map[]
    && ChainOk(chain) && StepsOk(steps, chain, 1) && HonestRun(steps, BlockHash)
    && forall i :: 0 <= i < |steps| ==> !steps[i].Die? && !steps[i].Fail?
  }

  /** What the steps after that first pass come to. */
  lemma AfterNothing(steps: seq<Step>, chain: seq<Log>, opts: PollOptions)
    requires opts.startBlock == 1 && opts.alertsKeep <= 0
    ensures After(FRESH, [NothingYet(chain, opts)] + steps, chain) == After(FRESH, steps, chain)
  {
    NothingYetIsNothing(chain, opts);
    AfterBoth(FRESH, [NothingYet(chain, opts)], steps, chain);
    assert [NothingYet(chain, opts)][..0] == [] && After(FRESH, [], chain) == FRESH;
  }

  // ---- what a pass does by itself ----

  /** Nobody else holds the log. */
  ghost predicate NobodyHolds(flights: map<nat, Flight>, id: nat, k: nat)
  {
    forall q :: q in flights && q != id ==> !(flights[q].phase.Checked? && flights[q].phase.next == k)
  }

  function AfterOne(s: Machine, id: nat, f: Flight, chain: seq<Log>): Machine
    requires f.phase.Scanning? && f.phase.next < |chain|
  {
    var p, log := f.phase, chain[f.phase.next];
    s.(tables := ApplyLog(s.tables, log), alerts := RaiseAlert(s.alerts, log),
       markers := s.markers[log.key := log.block],
       applied := s.applied + [p.next],
       flights := s.flights[id := f.(phase := Scanning(p.to, p.next + 1, p.hi), raced := false,
                                     unseen := p.next in s.applied, epoch := s.wipes)])
  }

  lemma TakesInHand(s: Machine, id: nat, f: Flight, chain: seq<Log>)
    requires id in s.flights && f == s.flights[id] && f.phase.Scanning? && f.phase.next < f.phase.hi <= |chain|
    requires chain[f.phase.next].key !in s.markers
    ensures var p := f.phase;
      Move(s, Check(id), chain)
      == s.(flights := s.flights[id := f.(phase := Checked(p.to, p.next, p.hi), raced := false,
                                          unseen := p.next in s.applied)])
  {
  }

  lemma AppliesIt(s: Machine, id: nat, f: Flight, chain: seq<Log>)
    requires id in s.flights && f == s.flights[id] && f.phase.Checked? && f.phase.next < |chain|
    requires NobodyHolds(s.flights, id, f.phase.next)
    ensures var p := f.phase;
      Move(s, Apply(id), chain)
      == s.(tables := ApplyLog(s.tables, chain[p.next]), alerts := RaiseAlert(s.alerts, chain[p.next]),
            applied := s.applied + [p.next],
            flights := s.flights[id := f.(phase := Applied(p.to, p.next, p.hi), epoch := s.wipes)])
  {
    var g := f.(phase := Applied(f.phase.to, f.phase.next, f.phase.hi), epoch := s.wipes);
    assert Overtaken(s.flights, f.phase.next)[id := g] == s.flights[id := g];
  }

  lemma MarksIt(s: Machine, id: nat, f: Flight, chain: seq<Log>)
    requires id in s.flights && f == s.flights[id] && f.phase.Applied? && f.phase.next < |chain|
    requires chain[f.phase.next].key !in s.markers
    ensures var p := f.phase;
      Move(s, Mark(id), chain)
      == s.(markers := s.markers[chain[p.next].key := chain[p.next].block],
            flights := s.flights[id := f.(phase := Scanning(p.to, p.next + 1, p.hi))])
  {
  }

  lemma Overwritten(flights: map<nat, Flight>, id: nat, f: Flight, g: Flight)
    ensures flights[id := f][id := g] == flights[id := g]
  {
  }

  function Holding(f: Flight, s: Machine): Flight
    requires f.phase.Scanning?
  {
    f.(phase := Applied(f.phase.to, f.phase.next, f.phase.hi), raced := false, unseen := f.phase.next in s.applied,
       epoch := s.wipes)
  }

  /** The log is applied and not yet marked. */
  function Halfway(s: Machine, id: nat, f: Flight, chain: seq<Log>): Machine
    requires f.phase.Scanning? && f.phase.next < |chain|
  {
    s.(tables := ApplyLog(s.tables, chain[f.phase.next]), alerts := RaiseAlert(s.alerts, chain[f.phase.next]),
       applied := s.applied + [f.phase.next], flights := s.flights[id := Holding(f, s)])
  }

  lemma ChecksAndApplies(s: Machine, id: nat, f: Flight, chain: seq<Log>)
    requires id in s.flights && f == s.flights[id] && f.phase.Scanning? && f.phase.next < f.phase.hi <= |chain|
    requires chain[f.phase.next].key !in s.markers && NobodyHolds(s.flights, id, f.phase.next)
    ensures Move(Move(s, Check(id), chain), Apply(id), chain) == Halfway(s, id, f, chain)
  {
    var p := f.phase;
    TakesInHand(s, id, f, chain);
    var f1 := f.(phase := Checked(p.to, p.next, p.hi), raced := false, unseen := p.next in s.applied);
    AppliesIt(s.(flights := s.flights[id := f1]), id, f1, chain);
    Overwritten(s.flights, id, f1, Holding(f, s));
  }

  lemma MarksHalfway(s: Machine, id: nat, f: Flight, chain: seq<Log>)
    requires id in s.flights && f == s.flights[id] && f.phase.Scanning? && f.phase.next < f.phase.hi <= |chain|
    requires chain[f.phase.next].key !in s.markers
    ensures Move(Halfway(s, id, f, chain), Mark(id), chain) == AfterOne(s, id, f, chain)
  {
    var p, g := f.phase, Holding(f, s);
    MarksIt(Halfway(s, id, f, chain), id, g, chain);
    Overwritten(s.flights, id, g, g.(phase := Scanning(p.to, p.next + 1, p.hi)));
  }

  lemma ThreeTo(s: Machine, s2: Machine, s3: Machine, a: Step, b: Step, c: Step, chain: seq<Log>)
    requires Move(Move(s, a, chain), b, chain) == s2 && Move(s2, c, chain) == s3
    ensures After(s, [a, b, c], chain) == s3
  {
    AfterThree(s, a, b, c, chain);
  }

  /** It checks, applies and marks a log that carries no marker. */
  lemma AppliesOne(s: Machine, id: nat, f: Flight, chain: seq<Log>)
    requires id in s.flights && f == s.flights[id] && f.phase.Scanning? && f.phase.next < f.phase.hi <= |chain|
    requires chain[f.phase.next].key !in s.markers && NobodyHolds(s.flights, id, f.phase.next)
    ensures After(s, [Check(id), Apply(id), Mark(id)], chain) == AfterOne(s, id, f, chain)
  {
    ChecksAndApplies(s, id, f, chain);
    MarksHalfway(s, id, f, chain);
    ThreeTo(s, Halfway(s, id, f, chain), AfterOne(s, id, f, chain), Check(id), Apply(id), Mark(id), chain);
  }

  lemma PassesBy(s: Machine, id: nat, f: Flight, chain: seq<Log>)
    requires id in s.flights && f == s.flights[id] && f.phase.Scanning? && f.phase.next < f.phase.hi <= |chain|
    requires chain[f.phase.next].key in s.markers
    ensures Move(s, Check(id), chain)
         == s.(flights := s.flights[id := f.(phase := Scanning(f.phase.to, f.phase.next + 1, f.phase.hi))])
  {
  }

  /** It starts on a fresh index and fetches its first chunk. */
  lemma SetsOff(s: Machine, id: nat, p: Pass, to: nat, chain: seq<Log>)
    requires id !in s.flights && s.cursor == None && s.cursorSince == 0
    requires p.opts.startBlock == 1 && p.opts.maxChunks > 0
    requires 0 < SafeHead(p) && to == Min(SafeHead(p), p.opts.chunkSize)
    ensures Move(Move(s, Enter(id, p), chain), Fetch(id), chain)
         == s.(flights := s.flights[id := Flying(p, Scanning(to, Upto(chain, 0), Upto(chain, to)))])
  {
    var f := Flying(p, Fetching(to));
    assert Move(s, Enter(id, p), chain) == s.(flights := s.flights[id := f]);
    Overwritten(s.flights, id, f, f.(phase := Scanning(to, Upto(chain, 0), Upto(chain, to))));
  }

  /** It stores cursor and hash of its last chunk, and retention runs. */
  lemma Ends(s: Machine, id: nat, f: Flight, chain: seq<Log>)
    requires id in s.flights && f == s.flights[id] && f.phase.Scanning? && f.phase.next >= f.phase.hi && f.chunks > 0
    requires f.phase.to >= SafeHead(f.pass) || f.chunks == 1
    ensures Move(Move(s, WriteCursor(id), chain), WriteHash(id), chain)
         == Trimmed(s.(cursor := Some(f.phase.to), cursorSince := f.since, hash := f.pass.provider.hashAt(f.phase.to),
                       hashOf := Some(f.phase.to)),
                    f.pass.opts, chain).(flights := s.flights - {id})
  {
    var g := f.(phase := Hashing(f.phase.to));
    var s1 := Move(s, WriteCursor(id), chain);
    assert s1 == s.(cursor := Some(f.phase.to), cursorSince := f.since, flights := s.flights[id := g]);
    assert s.flights[id := g] - {id} == s.flights - {id};
  }

  // ---- a log applied twice ----

  const TO_TEN := Pass(NodeOf(CHAIN, 10, -1), OPTS, None)

  function Flying(p: Pass, phase: Phase): Flight
  {
    Flight(p, 0, p.opts.maxChunks, phase, false, false, 0, 0)
  }

  const ATTESTED := FRESH.(tables := ApplyLog(NO_TABLES, ATTEST), markers := map[ATTEST.key := 5], applied := [0])

  lemma OnlyAttests(alerts: Table)
    ensures RaiseAlert(alerts, ATTEST) == alerts && RaiseAlert(alerts, CONFIRM) == alerts
  {
  }

  const SETTING_OFF := FRESH.(flights := map[0 := Flying(TO_TEN, Scanning(10, 0, 2))])

  const ONE_HOLDS := ATTESTED.(flights := map[0 := Flying(TO_TEN, Checked(10, 1, 2))])

  /** Both passes have checked the receipt and found no marker. */
  const BOTH_HOLD := ATTESTED.(flights := map[0 := Flying(TO_TEN, Checked(10, 1, 2)),
                                              1 := Flying(TO_TEN, Checked(10, 1, 2))])

  lemma FirstSetsOff()
    ensures After(FRESH, [Enter(0, TO_TEN), Fetch(0)], CHAIN) == SETTING_OFF
  {
    ChainIsOk();
    AfterTwo(FRESH, Enter(0, TO_TEN), Fetch(0), CHAIN);
    SetsOff(FRESH, 0, TO_TEN, 10, CHAIN);
  }

  lemma OneHolds()
    ensures Move(After(SETTING_OFF, [Check(0), Apply(0), Mark(0)], CHAIN), Check(0), CHAIN) == ONE_HOLDS
  {
    OnlyAttests(FRESH.alerts);
    AppliesOne(SETTING_OFF, 0, Flying(TO_TEN, Scanning(10, 0, 2)), CHAIN);
    var s := ATTESTED.(flights := map[0 := Flying(TO_TEN, Scanning(10, 1, 2))]);
    assert AfterOne(SETTING_OFF, 0, Flying(TO_TEN, Scanning(10, 0, 2)), CHAIN) == s;
    TakesInHand(s, 0, Flying(TO_TEN, Scanning(10, 1, 2)), CHAIN);
  }

  lemma BothHold()
    ensures
      var s := Move(Move(ONE_HOLDS, Enter(1, TO_TEN), CHAIN), Fetch(1), CHAIN);
      Move(Move(s, Check(1), CHAIN), Check(1), CHAIN) == BOTH_HOLD
  {
    ChainIsOk();
    SetsOff(ONE_HOLDS, 1, TO_TEN, 10, CHAIN);
    var s := ONE_HOLDS.(flights := ONE_HOLDS.flights[1 := Flying(TO_TEN, Scanning(10, 0, 2))]);
    PassesBy(s, 1, Flying(TO_TEN, Scanning(10, 0, 2)), CHAIN);
    var t := ONE_HOLDS.(flights := ONE_HOLDS.flights[1 := Flying(TO_TEN, Scanning(10, 1, 2))]);
    TakesInHand(t, 1, Flying(TO_TEN, Scanning(10, 1, 2)), CHAIN);
  }

  function Confirmations(t: Tables): int
  {
    if AGENT in t.scores then t.scores[AGENT].confirmed else 0
  }

  const TWO_PASSES: seq<Step> :=
    [Enter(0, TO_TEN), Fetch(0)] + [Check(0), Apply(0), Mark(0)] + [Check(0), Enter(1, TO_TEN), Fetch(1)]
    + [Check(1), Check(1)] + [Apply(0), Apply(1)]

  /** Two passes check the receipt before either marks it, and both apply it: confirmed
      twice, counted twice, one receipt row. */
  lemma ReceiptAppliedTwice()
    ensures Peaceful([NothingYet(CHAIN, OPTS)] + TWO_PASSES, CHAIN)
    ensures
      var s := After(FRESH, [NothingYet(CHAIN, OPTS)] + TWO_PASSES, CHAIN);
      && s.wipes == 0 && s.applied == [0, 1, 1] && s.tables == Fold(NO_TABLES, [ATTEST, CONFIRM, CONFIRM])
      && PairCount(s.tables.pairs, PAIR) == 2 && Confirmations(s.tables) == 2
      && s.tables.receipts.Keys == {7}
  {
    AfterNothing(TWO_PASSES, CHAIN, OPTS);
    TwoPassesArePeaceful();
    TwoPasses();
    BothApply();
    FoldOfThree();
  }

  lemma TwoPasses()
    ensures After(FRESH, TWO_PASSES, CHAIN) == Move(Move(BOTH_HOLD, Apply(0), CHAIN), Apply(1), CHAIN)
  {
    var a, b := [Enter(0, TO_TEN), Fetch(0)], [Check(0), Apply(0), Mark(0)];
    var c, d, e := [Check(0), Enter(1, TO_TEN), Fetch(1)], [Check(1), Check(1)], [Apply(0), Apply(1)];
    AfterBoth(FRESH, a + b + c + d, e, CHAIN);
    AfterBoth(FRESH, a + b + c, d, CHAIN);
    AfterBoth(FRESH, a + b, c, CHAIN);
    AfterBoth(FRESH, a, b, CHAIN);
    FirstSetsOff();
    OneHolds();
    AfterThree(After(SETTING_OFF, b, CHAIN), Check(0), Enter(1, TO_TEN), Fetch(1), CHAIN);
    AfterTwo(After(FRESH, a + b + c, CHAIN), Check(1), Check(1), CHAIN);
    BothHold();
    AfterTwo(BOTH_HOLD, Apply(0), Apply(1), CHAIN);
  }

  lemma TwoPassesArePeaceful()
    ensures Peaceful([NothingYet(CHAIN, OPTS)] + TWO_PASSES, CHAIN)
  {
    ChainIsOk();
    NothingYetIsNothing(CHAIN, OPTS);
    NodeServes(CHAIN, 0, -1);
    NodeServes(CHAIN, 10, -1);
  }

  lemma BothApply()
    ensures
      var s := Move(Move(BOTH_HOLD, Apply(0), CHAIN), Apply(1), CHAIN);
      && s.wipes == 0 && s.applied == [0, 1, 1]
      && s.tables == ApplyLog(ApplyLog(ApplyLog(NO_TABLES, ATTEST), CONFIRM), CONFIRM)
  {
    OnlyAttests(FRESH.alerts);
    var s1 := Move(BOTH_HOLD, Apply(0), CHAIN);
    assert s1.applied == [0, 1] && s1.flights[1] == Flying(TO_TEN, Checked(10, 1, 2)).(raced := true);
  }

  lemma FoldOfThree()
    ensures
      var t := Fold(NO_TABLES, [ATTEST, CONFIRM, CONFIRM]);
      && t == ApplyLog(ApplyLog(ApplyLog(NO_TABLES, ATTEST), CONFIRM), CONFIRM)
      && PairCount(t.pairs, PAIR) == 2 && Confirmations(t) == 2 && t.receipts.Keys == {7}
  {
    var logs := [ATTEST, CONFIRM, CONFIRM];
    assert logs[..2] == [ATTEST, CONFIRM] && [ATTEST, CONFIRM][..1] == [ATTEST] && [ATTEST][..0] == [];
    assert Fold(NO_TABLES, [ATTEST]) == ApplyLog(NO_TABLES, ATTEST);
    assert Fold(NO_TABLES, [ATTEST, CONFIRM]) == ApplyLog(Fold(NO_TABLES, [ATTEST]), CONFIRM);
    var t1 := ApplyLog(NO_TABLES, ATTEST);
    assert t1 == Attested(NO_TABLES, 7, AGENT, 50);
    var t2 := ApplyLog(t1, CONFIRM);
    assert t2 == Confirmed(t1, 7, PAIR, 50) && t2.scores[AGENT].confirmed == 1 && PairCount(t2.pairs, PAIR) == 1;
    assert ApplyLog(t2, CONFIRM) == Confirmed(t2, 7, PAIR, 50);
  }

  // ---- a log applied twice by a slow pass, with no marker left ----

  const PRUNING := Pass(NodeOf(CHAIN, 10, -1), OPTS.(markerBlocks := 2), None)

  const SLOW := FRESH.(flights := map[0 := Flying(PRUNING, Scanning(10, 0, 2))])

  /** The slow pass has its answer; the other has applied and marked `n` logs. */
  function Quick(s: Machine, n: nat): Machine
  {
    s.(flights := SLOW.flights[1 := Flying(PRUNING, Scanning(10, n, 2))])
  }

  const BOTH_MARKED := ATTESTED.(tables := ApplyLog(ApplyLog(NO_TABLES, ATTEST), CONFIRM),
                                 markers := map[ATTEST.key := 5, CONFIRM.key := 5], applied := [0, 1])

  lemma QuickAttests()
    ensures After(Quick(FRESH, 0), [Check(1), Apply(1), Mark(1)], CHAIN) == Quick(ATTESTED, 1)
  {
    OnlyAttests(FRESH.alerts);
    AppliesOne(Quick(FRESH, 0), 1, Flying(PRUNING, Scanning(10, 0, 2)), CHAIN);
    Overwritten(SLOW.flights, 1, Flying(PRUNING, Scanning(10, 0, 2)), Flying(PRUNING, Scanning(10, 1, 2)));
  }

  lemma QuickConfirms()
    ensures After(Quick(ATTESTED, 1), [Check(1), Apply(1), Mark(1)], CHAIN) == Quick(BOTH_MARKED, 2)
  {
    OnlyAttests(FRESH.alerts);
    AppliesOne(Quick(ATTESTED, 1), 1, Flying(PRUNING, Scanning(10, 1, 2)), CHAIN);
    Overwritten(SLOW.flights, 1, Flying(PRUNING, Scanning(10, 1, 2)), Flying(PRUNING, Scanning(10, 2, 2)));
  }

  /** The quick pass ends, and retention takes the markers the slow one would need. */
  lemma QuickEnds()
    ensures
      var s := After(Quick(BOTH_MARKED, 2), [WriteCursor(1), WriteHash(1)], CHAIN);
      && s.flights == SLOW.flights && s.markers == map[] && s.applied == [0, 1] && s.wipes == 0
      && s.tables == BOTH_MARKED.tables
  {
    ChainIsOk();
    var s := Quick(BOTH_MARKED, 2);
    AfterTwo(s, WriteCursor(1), WriteHash(1), CHAIN);
    Ends(s, 1, Flying(PRUNING, Scanning(10, 2, 2)), CHAIN);
    assert SLOW.flights[1 := Flying(PRUNING, Scanning(10, 2, 2))] - {1} == SLOW.flights;
    assert RecentMarkers(BOTH_MARKED.markers, 10, 2) == map[];
  }

  /** The slow pass finds no marker and applies the attestation again. */
  lemma SlowApplies(s: Machine)
    requires s.flights == SLOW.flights && s.markers == map[] && s.applied == [0, 1] && s.wipes == 0
    ensures var s' := After(s, [Check(0), Apply(0), Mark(0)], CHAIN);
      s'.applied == [0, 1, 0] && s'.wipes == 0 && s'.tables == ApplyLog(s.tables, ATTEST)
  {
    AppliesOne(s, 0, Flying(PRUNING, Scanning(10, 0, 2)), CHAIN);
  }

  const SLOW_AND_QUICK: seq<Step> :=
    [Enter(0, PRUNING), Fetch(0)] + [Enter(1, PRUNING), Fetch(1)] + [Check(1), Apply(1), Mark(1)]
    + [Check(1), Apply(1), Mark(1)] + [WriteCursor(1), WriteHash(1)] + [Check(0), Apply(0), Mark(0)]

  /** A pass that is slow to get its logs finds their markers pruned by another that has
      ended: two attested completions where the chain has one. */
  lemma SlowPassAppliesAgain()
    ensures Peaceful([NothingYet(CHAIN, PRUNING.opts)] + SLOW_AND_QUICK, CHAIN)
    ensures
      var s := After(FRESH, [NothingYet(CHAIN, PRUNING.opts)] + SLOW_AND_QUICK, CHAIN);
      && s.wipes == 0 && s.applied == [0, 1, 0]
      && Attestations(s.tables) == 2 && Attestations(Fold(NO_TABLES, CHAIN)) == 1
  {
    AfterNothing(SLOW_AND_QUICK, CHAIN, PRUNING.opts);
    SlowAndQuickArePeaceful();
    var steps := SLOW_AND_QUICK[..12];
    assert SLOW_AND_QUICK == steps + [Check(0), Apply(0), Mark(0)];
    AfterBoth(FRESH, steps, [Check(0), Apply(0), Mark(0)], CHAIN);
    QuickRuns(steps);
    SlowApplies(After(FRESH, steps, CHAIN));
    AttestedAgain();
  }

  function Attestations(t: Tables): int
  {
    if AGENT in t.scores then t.scores[AGENT].completions else 0
  }

  lemma SlowAndQuickArePeaceful()
    ensures Peaceful([NothingYet(CHAIN, PRUNING.opts)] + SLOW_AND_QUICK, CHAIN)
  {
    ChainIsOk();
    NothingYetIsNothing(CHAIN, PRUNING.opts);
    NodeServes(CHAIN, 0, -1);
    NodeServes(CHAIN, 10, -1);
  }

  lemma QuickRuns(steps: seq<Step>)
    requires steps == [Enter(0, PRUNING), Fetch(0)] + [Enter(1, PRUNING), Fetch(1)] + [Check(1), Apply(1), Mark(1)]
                      + [Check(1), Apply(1), Mark(1)] + [WriteCursor(1), WriteHash(1)]
    ensures
      var s := After(FRESH, steps, CHAIN);
      && s.flights == SLOW.flights && s.markers == map[] && s.applied == [0, 1] && s.wipes == 0
      && s.tables == BOTH_MARKED.tables
  {
    var a, b := [Enter(0, PRUNING), Fetch(0)], [Enter(1, PRUNING), Fetch(1)];
    var c, d := [Check(1), Apply(1), Mark(1)], [WriteCursor(1), WriteHash(1)];
    AfterBoth(FRESH, a + b + c + c, d, CHAIN);
    AfterBoth(FRESH, a + b + c, c, CHAIN);
    AfterBoth(FRESH, a + b, c, CHAIN);
    BothSetOff();
    QuickAttests();
    QuickConfirms();
    QuickEnds();
  }

  lemma BothSetOff()
    ensures After(FRESH, [Enter(0, PRUNING), Fetch(0)] + [Enter(1, PRUNING), Fetch(1)], CHAIN) == Quick(FRESH, 0)
  {
    ChainIsOk();
    AfterBoth(FRESH, [Enter(0, PRUNING), Fetch(0)], [Enter(1, PRUNING), Fetch(1)], CHAIN);
    AfterTwo(FRESH, Enter(0, PRUNING), Fetch(0), CHAIN);
    SetsOff(FRESH, 0, PRUNING, 10, CHAIN);
    AfterTwo(SLOW, Enter(1, PRUNING), Fetch(1), CHAIN);
    SetsOff(SLOW, 1, PRUNING, 10, CHAIN);
  }

  lemma AttestedAgain()
    ensures
      var t := ApplyLog(ApplyLog(NO_TABLES, ATTEST), CONFIRM);
      t == Fold(NO_TABLES, CHAIN) && Attestations(t) == 1 && Attestations(ApplyLog(t, ATTEST)) == 2
  {
    assert CHAIN[..1] == [ATTEST] && [ATTEST][..0] == [];
    assert Fold(NO_TABLES, [ATTEST]) == ApplyLog(NO_TABLES, ATTEST);
    var t1 := ApplyLog(NO_TABLES, ATTEST);
    assert t1 == Attested(NO_TABLES, 7, AGENT, 50);
    assert ApplyLog(t1, CONFIRM) == Confirmed(t1, 7, PAIR, 50);
    assert ApplyLog(Confirmed(t1, 7, PAIR, 50), ATTEST) == Attested(Confirmed(t1, 7, PAIR, 50), 7, AGENT, 50);
  }

  // ---- a hash written late, a wipe with no fork, a log lost in it ----

  const LATE := Log(14, LogKey(5, 0), 140, SelfAttested(8, AGENT))
  const ONE_LATE: seq<Log> := [LATE]

  lemma OneLateIsOk()
    ensures ChainOk(ONE_LATE) && Base(ONE_LATE, 1) == 0
    ensures forall b :: Upto(ONE_LATE, b) == if b >= 14 then 1 else 0
  {
    forall b
      ensures Upto(ONE_LATE, b) == if b >= 14 then 1 else 0
    {
      assert ONE_LATE[..0] == [] && Upto([], b) == 0;
    }
  }

  const TO_10 := Pass(NodeOf(ONE_LATE, 10, -1), OPTS, None)
  const TO_12 := Pass(NodeOf(ONE_LATE, 12, -1), OPTS, None)
  const TO_15 := Pass(NodeOf(ONE_LATE, 15, -1), OPTS, None)
  const TO_15_BLIND := Pass(NodeOf(ONE_LATE, 15, 12), OPTS, None)

  /** One pass has stored the cursor 10 and waits for the hash. */
  const WAITING := FRESH.(cursor := Some(10), flights := map[0 := Flying(TO_10, Hashing(10))])

  lemma WaitsForHash()
    ensures After(FRESH, [Enter(0, TO_10), Fetch(0), WriteCursor(0)], ONE_LATE) == WAITING
  {
    OneLateIsOk();
    AfterThree(FRESH, Enter(0, TO_10), Fetch(0), WriteCursor(0), ONE_LATE);
    SetsOff(FRESH, 0, TO_10, 10, ONE_LATE);
    Overwritten(map[], 0, Flying(TO_10, Scanning(10, 0, 0)), Flying(TO_10, Hashing(10)));
  }

  function FlyingFrom(p: Pass, from: int, phase: Phase): Flight
  {
    Flying(p, phase).(from := from)
  }

  /** A pass that sees no mismatch goes on from the cursor it found. */
  lemma LooksPast(s: Machine, id: nat, p: Pass, cursor: nat, to: nat, chain: seq<Log>)
    requires id !in s.flights && s.cursor == Some(cursor) && s.cursorSince == 0 && 0 < cursor < SafeHead(p)
    requires to == Min(SafeHead(p), cursor + p.opts.chunkSize) && p.opts.maxChunks > 0
    requires !Differ(s.hash, p.provider.hashAt(cursor))
    ensures After(s, [Enter(id, p), Look(id), Fetch(id)], chain)
         == s.(flights := s.flights[id := FlyingFrom(p, cursor, Scanning(to, Upto(chain, cursor), Upto(chain, to)))])
  {
    AfterThree(s, Enter(id, p), Look(id), Fetch(id), chain);
    SeesNoMismatch(s, id, p, cursor, to, chain);
    var g := FlyingFrom(p, cursor, Fetching(to));
    Overwritten(s.flights, id, g, g.(phase := Scanning(to, Upto(chain, cursor), Upto(chain, to))));
  }

  lemma SeesNoMismatch(s: Machine, id: nat, p: Pass, cursor: nat, to: nat, chain: seq<Log>)
    requires id !in s.flights && s.cursor == Some(cursor) && s.cursorSince == 0 && 0 < cursor < SafeHead(p)
    requires to == Min(SafeHead(p), cursor + p.opts.chunkSize) && p.opts.maxChunks > 0
    requires !Differ(s.hash, p.provider.hashAt(cursor))
    ensures Move(Move(s, Enter(id, p), chain), Look(id), chain)
         == s.(flights := s.flights[id := FlyingFrom(p, cursor, Fetching(to))])
  {
    EntersToLook(s, id, p, cursor, chain);
    var f := FlyingFrom(p, cursor, Looking(cursor, s.hash, s.hashOf));
    Overwritten(s.flights, id, f, f.(phase := Fetching(to)));
  }

  lemma EntersToLook(s: Machine, id: nat, p: Pass, cursor: nat, chain: seq<Log>)
    requires id !in s.flights && s.cursor == Some(cursor) && s.cursorSince == 0 && 0 < cursor
    ensures Move(s, Enter(id, p), chain)
         == s.(flights := s.flights[id := FlyingFrom(p, cursor, Looking(cursor, s.hash, s.hashOf))])
  {
  }

  /** Cursor 12 beside the hash of block 10, and nothing in flight. */
  predicate Misaligned(s: Machine)
  {
    && s.tables == NO_TABLES && s.markers == map[] && s.applied == [] && s.wipes == 0
    && s.cursor == Some(12) && s.cursorSince == 0 && s.hash == BlockHash(10) && s.hashOf == Some(10)
  }

  const TWO_WAIT := WAITING.(flights := WAITING.flights[1 := FlyingFrom(TO_12, 10, Scanning(12, 0, 0))])

  lemma SecondPasses()
    ensures After(WAITING, [Enter(1, TO_12), Look(1), Fetch(1)], ONE_LATE) == TWO_WAIT
  {
    OneLateIsOk();
    LooksPast(WAITING, 1, TO_12, 10, 12, ONE_LATE);
  }

  lemma HashesCross()
    ensures
      var s := After(TWO_WAIT, [WriteCursor(1), WriteHash(1), WriteHash(0)], ONE_LATE);
      Misaligned(s) && s.flights == map[]
  {
    AfterThree(TWO_WAIT, WriteCursor(1), WriteHash(1), WriteHash(0), ONE_LATE);
    Ends(TWO_WAIT, 1, FlyingFrom(TO_12, 10, Scanning(12, 0, 0)), ONE_LATE);
    var s := Move(Move(TWO_WAIT, WriteCursor(1), ONE_LATE), WriteHash(1), ONE_LATE);
    assert TWO_WAIT.flights - {1} == WAITING.flights;
    FirstHashIsLate(s);
  }

  lemma FirstHashIsLate(s: Machine)
    requires s.flights == WAITING.flights && s.cursor == Some(12) && s.cursorSince == 0
    requires s.tables == NO_TABLES && s.markers == map[] && s.applied == [] && s.wipes == 0
    ensures var s' := Move(s, WriteHash(0), ONE_LATE);
      Misaligned(s') && s'.flights == map[]
  {
    assert WAITING.flights - {0} == map[];
  }

  /** A pass whose node has no answer for block 12 goes on and applies the log of block 14. */
  lemma BlindGoesOn(s: Machine)
    requires Misaligned(s) && s.flights == map[]
    ensures
      var s' := After(After(s, [Enter(3, TO_15_BLIND), Look(3), Fetch(3)], ONE_LATE), [Check(3), Apply(3)], ONE_LATE);
      && s'.flights == map[3 := FlyingFrom(TO_15_BLIND, 12, Applied(15, 0, 1))]
      && s'.cursor == Some(12) && s'.cursorSince == 0 && s'.hash == BlockHash(10) && s'.hashOf == Some(10)
      && s'.wipes == 0
      && s'.applied == [0] && s'.markers == map[]
  {
    OneLateIsOk();
    LooksPast(s, 3, TO_15_BLIND, 12, 15, ONE_LATE);
    var f := FlyingFrom(TO_15_BLIND, 12, Scanning(15, 0, 1));
    var t := s.(flights := map[3 := f]);
    AfterTwo(t, Check(3), Apply(3), ONE_LATE);
    ChecksAndApplies(t, 3, f, ONE_LATE);
    Overwritten(map[], 3, f, Holding(f, t));
  }

  /** The next pass takes the hash of block 10 for that of block 12 on another fork. */
  lemma WipesWithoutFork(s: Machine)
    requires s.flights == map[3 := FlyingFrom(TO_15_BLIND, 12, Applied(15, 0, 1))]
    requires s.cursor == Some(12) && s.cursorSince == 0 && s.hash == BlockHash(10) && s.hashOf == Some(10)
    requires s.wipes == 0
    ensures
      var s' := After(s, [Enter(2, TO_15), Look(2)], ONE_LATE);
      && s'.wipes == 1 && s'.applied == [] && s'.markers == map[] && s'.tables.scores == map[]
      && 3 in s'.flights && s'.flights[3].phase == Applied(15, 0, 1)
  {
    AfterTwo(s, Enter(2, TO_15), Look(2), ONE_LATE);
    EntersToLook(s, 2, TO_15, 12, ONE_LATE);
  }

  lemma MarksWhatIsGone(s: Machine)
    requires s.applied == [] && s.markers == map[] && s.wipes == 1 && s.tables.scores == map[]
    requires 3 in s.flights && s.flights[3].phase == Applied(15, 0, 1)
    ensures
      var s' := Move(s, Mark(3), ONE_LATE);
      && s'.wipes == 1 && s'.applied == [] && LATE.key in s'.markers && s'.tables.scores == map[]
  {
  }

  const LATE_HASH: seq<Step> :=
    [Enter(0, TO_10), Fetch(0), WriteCursor(0)] + [Enter(1, TO_12), Look(1), Fetch(1)]
    + [WriteCursor(1), WriteHash(1), WriteHash(0)]
    + [Enter(3, TO_15_BLIND), Look(3), Fetch(3)] + [Check(3), Apply(3)] + [Enter(2, TO_15), Look(2)]

  /** Two passes cross, the slower one's hash lands beside the other's cursor, and a later
      pass wipes an index whose chain never forked. */
  lemma LateHashWipes()
    ensures Peaceful([NothingYet(ONE_LATE, OPTS)] + LATE_HASH, ONE_LATE)
    ensures
      var s := After(FRESH, [NothingYet(ONE_LATE, OPTS)] + LATE_HASH, ONE_LATE);
      && s.wipes == 1 && s.applied == [] && s.markers == map[] && s.tables.scores == map[]
      && 3 in s.flights && s.flights[3].phase == Applied(15, 0, 1)
  {
    AfterNothing(LATE_HASH, ONE_LATE, OPTS);
    LateHashIsPeaceful();
    var a := [Enter(0, TO_10), Fetch(0), WriteCursor(0)] + [Enter(1, TO_12), Look(1), Fetch(1)]
             + [WriteCursor(1), WriteHash(1), WriteHash(0)];
    var b, c := [Enter(3, TO_15_BLIND), Look(3), Fetch(3)], [Check(3), Apply(3)];
    AfterBoth(FRESH, a + b + c, [Enter(2, TO_15), Look(2)], ONE_LATE);
    AfterBoth(FRESH, a + b, c, ONE_LATE);
    AfterBoth(FRESH, a, b, ONE_LATE);
    CrossedHashes(a);
    BlindGoesOn(After(FRESH, a, ONE_LATE));
    WipesWithoutFork(After(FRESH, a + b + c, ONE_LATE));
  }

  lemma CrossedHashes(a: seq<Step>)
    requires a == [Enter(0, TO_10), Fetch(0), WriteCursor(0)] + [Enter(1, TO_12), Look(1), Fetch(1)]
                  + [WriteCursor(1), WriteHash(1), WriteHash(0)]
    ensures Misaligned(After(FRESH, a, ONE_LATE)) && After(FRESH, a, ONE_LATE).flights == map[]
  {
    var p, q := [Enter(0, TO_10), Fetch(0), WriteCursor(0)], [Enter(1, TO_12), Look(1), Fetch(1)];
    AfterBoth(FRESH, p + q, [WriteCursor(1), WriteHash(1), WriteHash(0)], ONE_LATE);
    AfterBoth(FRESH, p, q, ONE_LATE);
    WaitsForHash();
    SecondPasses();
    HashesCross();
  }

  lemma LateHashIsPeaceful()
    ensures Peaceful([NothingYet(ONE_LATE, OPTS)] + LATE_HASH, ONE_LATE) &&
            Peaceful([NothingYet(ONE_LATE, OPTS)] + LATE_HASH + [Mark(3)], ONE_LATE)
  {
    OneLateIsOk();
    NothingYetIsNothing(ONE_LATE, OPTS);
    NodeServes(ONE_LATE, 0, -1);
    NodeServes(ONE_LATE, 10, -1);
    NodeServes(ONE_LATE, 12, -1);
    NodeServes(ONE_LATE, 15, -1);
    NodeServes(ONE_LATE, 15, 12);
  }

  /** The pass caught by that wipe between applying its log and marking it marks it all
      the same, so the replay will pass it by. */
  lemma WipedLogIsLost()
    ensures Peaceful([NothingYet(ONE_LATE, OPTS)] + LATE_HASH + [Mark(3)], ONE_LATE)
    ensures
      var s := After(FRESH, [NothingYet(ONE_LATE, OPTS)] + LATE_HASH + [Mark(3)], ONE_LATE);
      && s.wipes == 1 && s.applied == [] && s.tables.scores == map[] && LATE.key in s.markers && !Sound(s, ONE_LATE)
  {
    AfterNothing(LATE_HASH, ONE_LATE, OPTS);
    AfterNothing(LATE_HASH + [Mark(3)], ONE_LATE, OPTS);
    assert [NothingYet(ONE_LATE, OPTS)] + LATE_HASH + [Mark(3)]
           == [NothingYet(ONE_LATE, OPTS)] + (LATE_HASH + [Mark(3)]);
    LateHashIsPeaceful();
    LateHashWipes();
    assert (LATE_HASH + [Mark(3)])[..|LATE_HASH|] == LATE_HASH;
    MarksWhatIsGone(After(FRESH, LATE_HASH, ONE_LATE));
    assert ONE_LATE[0].key == LATE.key;
  }
}
