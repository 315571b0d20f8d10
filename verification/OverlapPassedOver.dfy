/** A log passed over: one more run of overlapping passes from a fresh index, over a
    chain that never forks, with honest nodes, and with no process dying. No log is
    applied late and no mark is stray, and still one log is lost for good. */
module OverlapPassedOver {

  import opened Parties
  import opened Alerts
  import opened IndexDb
  import opened ChainLogs
  import opened IndexTrail
  import opened IndexerCounterexamples
  import opened Overlap
  import opened OverlapMarks
  import opened OverlapHistory
  import opened OverlapCounterexamples

  const SEVENTH := Log(7, LogKey(6, 0), 70, SelfAttested(9, AGENT))
  const SEVEN: seq<Log> := [SEVENTH]

  /** One chunk of five blocks a pass. */
  const SHORT := PollOptions(1, 5, 0, 1, 0, 0, 0)
  const BY_TEN := Pass(NodeOf(SEVEN, 10, -1), SHORT, None)
  const BY_FIFTEEN := Pass(NodeOf(SEVEN, 15, -1), SHORT, None)

  lemma SevenIsOk()
    ensures ChainOk(SEVEN) && Base(SEVEN, 1) == 0
    ensures forall b :: Upto(SEVEN, b) == if b >= 7 then 1 else 0
  {
    forall b
      ensures Upto(SEVEN, b) == if b >= 7 then 1 else 0
    {
      assert SEVEN[..0] == [] && Upto([], b) == 0;
    }
  }

  /** The pass stores cursor and hash of its one chunk, and retention is off. */
  lemma EndsItsChunk(s: Machine, id: nat, f: Flight, chain: seq<Log>)
    requires id in s.flights && f == s.flights[id] && f.phase.Scanning? && f.phase.next >= f.phase.hi && f.chunks == 1
    requires f.pass.opts == SHORT
    ensures After(s, [WriteCursor(id), WriteHash(id)], chain)
         == s.(cursor := Some(f.phase.to), cursorSince := f.since, hash := f.pass.provider.hashAt(f.phase.to),
               hashOf := Some(f.phase.to), flights := s.flights - {id})
  {
    AfterTwo(s, WriteCursor(id), WriteHash(id), chain);
    Ends(s, id, f, chain);
    var s' := s.(cursor := Some(f.phase.to), cursorSince := f.since, hash := f.pass.provider.hashAt(f.phase.to),
                 hashOf := Some(f.phase.to));
    assert s.forgotten + Forgets(s', s'.markers, chain) == s.forgotten;
  }

  // ---- two passes, each alone ----

  const AT_FIVE := FRESH.(cursor := Some(5), hash := BlockHash(5), hashOf := Some(5))
  const AT_TEN := FRESH.(tables := ApplyLog(NO_TABLES, SEVENTH), markers := map[SEVENTH.key := 7], applied := [0],
                         cursor := Some(10), hash := BlockHash(10), hashOf := Some(10))

  const FIRST_PASS: seq<Step> := [Enter(0, BY_TEN), Fetch(0)] + [WriteCursor(0), WriteHash(0)]
  const SECOND_PASS: seq<Step> :=
    [Enter(0, BY_TEN), Look(0), Fetch(0)] + [Check(0), Apply(0), Mark(0)] + [WriteCursor(0), WriteHash(0)]

  lemma FirstPassAlone()
    ensures After(FRESH, FIRST_PASS, SEVEN) == AT_FIVE
  {
    SevenIsOk();
    AfterBoth(FRESH, [Enter(0, BY_TEN), Fetch(0)], [WriteCursor(0), WriteHash(0)], SEVEN);
    AfterTwo(FRESH, Enter(0, BY_TEN), Fetch(0), SEVEN);
    SetsOff(FRESH, 0, BY_TEN, 5, SEVEN);
    var f := Flying(BY_TEN, Scanning(5, 0, 0));
    EndsItsChunk(FRESH.(flights := map[0 := f]), 0, f, SEVEN);
    assert map[0 := f] - {0} == map[];
  }

  /** The second pass stands before the log of block 7, and behind it. */
  const BEFORE_IT := AT_FIVE.(flights := map[0 := FlyingFrom(BY_TEN, 5, Scanning(10, 0, 1))])
  const BEHIND_IT := AT_TEN.(cursor := Some(5), hash := BlockHash(5), hashOf := Some(5),
                             flights := map[0 := FlyingFrom(BY_TEN, 5, Scanning(10, 1, 1))])

  lemma SecondSetsOff()
    ensures After(AT_FIVE, [Enter(0, BY_TEN), Look(0), Fetch(0)], SEVEN) == BEFORE_IT
  {
    SevenIsOk();
    LooksPast(AT_FIVE, 0, BY_TEN, 5, 10, SEVEN);
  }

  lemma SecondApplies()
    ensures After(BEFORE_IT, [Check(0), Apply(0), Mark(0)], SEVEN) == BEHIND_IT
  {
    var f := FlyingFrom(BY_TEN, 5, Scanning(10, 0, 1));
    AppliesOne(BEFORE_IT, 0, f, SEVEN);
    Overwritten(map[], 0, f, FlyingFrom(BY_TEN, 5, Scanning(10, 1, 1)));
  }

  lemma SecondPassAlone()
    ensures After(AT_FIVE, SECOND_PASS, SEVEN) == AT_TEN
  {
    var a, b := [Enter(0, BY_TEN), Look(0), Fetch(0)], [Check(0), Apply(0), Mark(0)];
    AfterBoth(AT_FIVE, a + b, [WriteCursor(0), WriteHash(0)], SEVEN);
    AfterBoth(AT_FIVE, a, b, SEVEN);
    SecondSetsOff();
    SecondApplies();
    EndsItsChunk(BEHIND_IT, 0, FlyingFrom(BY_TEN, 5, Scanning(10, 1, 1)), SEVEN);
    assert BEHIND_IT.flights - {0} == map[];
  }

  // ---- three passes together ----

  const ONWARD := FlyingFrom(BY_FIFTEEN, 10, Scanning(15, 1, 1))

  const TOGETHER: seq<Step> := [Enter(0, BY_FIFTEEN), Look(0), Fetch(0)] + [Enter(2, BY_FIFTEEN), Look(2), Fetch(2)]

  lemma TwoGoOn()
    ensures After(AT_TEN, TOGETHER, SEVEN) == AT_TEN.(flights := map[0 := ONWARD, 2 := ONWARD])
  {
    SevenIsOk();
    AfterBoth(AT_TEN, [Enter(0, BY_FIFTEEN), Look(0), Fetch(0)], [Enter(2, BY_FIFTEEN), Look(2), Fetch(2)], SEVEN);
    LooksPast(AT_TEN, 0, BY_FIFTEEN, 10, 15, SEVEN);
    LooksPast(AT_TEN.(flights := map[0 := ONWARD]), 2, BY_FIFTEEN, 10, 15, SEVEN);
  }

  /** One has written its cursor and not its hash. */
  const BETWEEN := AT_TEN.(cursor := Some(15),
                           flights := map[0 := ONWARD.(phase := Hashing(15)), 2 := ONWARD])

  lemma CursorAlone()
    ensures Move(AT_TEN.(flights := map[0 := ONWARD, 2 := ONWARD]), WriteCursor(0), SEVEN) == BETWEEN
  {
    assert map[0 := ONWARD, 2 := ONWARD][0 := ONWARD.(phase := Hashing(15))] == BETWEEN.flights;
  }

  /** A third pass has wiped, and starts over; what the others do is from before. */
  const EMPTIED := BETWEEN.(tables := Reset(AT_TEN.tables), markers := map[], applied := [], wipes := 1,
                            seed := Reset(AT_TEN.tables),
                            flights := BETWEEN.flights[1 := Flying(BY_FIFTEEN, Fetching(5)).(since := 1)])

  lemma ThirdWipes()
    ensures Move(Move(BETWEEN, Enter(1, BY_FIFTEEN), SEVEN), Look(1), SEVEN) == EMPTIED
  {
    EntersToLook(BETWEEN, 1, BY_FIFTEEN, 15, SEVEN);
    var f := FlyingFrom(BY_FIFTEEN, 15, Looking(15, BlockHash(10), Some(10)));
    var s := BETWEEN.(flights := BETWEEN.flights[1 := f]);
    NothingToClear(BETWEEN.flights[1 := f]);
    assert DropFrom(BETWEEN.alerts, 15) == BETWEEN.alerts;
    Overwritten(BETWEEN.flights, 1, f, Flying(BY_FIFTEEN, Fetching(5)).(since := 1));
    assert Wiped(s, 15) == EMPTIED.(flights := BETWEEN.flights[1 := f]);
  }

  lemma NothingToClear(flights: map<nat, Flight>)
    requires forall q :: q in flights ==> !flights[q].raced && !flights[q].unseen
    ensures Cleared(flights) == flights
  {
  }

  lemma WipedWhileTwoFly()
    ensures After(AT_TEN, TOGETHER + [WriteCursor(0), Enter(1, BY_FIFTEEN), Look(1)], SEVEN) == EMPTIED
  {
    AfterBoth(AT_TEN, TOGETHER, [WriteCursor(0), Enter(1, BY_FIFTEEN), Look(1)], SEVEN);
    TwoGoOn();
    AfterThree(AT_TEN.(flights := map[0 := ONWARD, 2 := ONWARD]), WriteCursor(0), Enter(1, BY_FIFTEEN), Look(1), SEVEN);
    CursorAlone();
    ThirdWipes();
  }

  // ---- the others end after the wipe ----

  const REPLAYING := EMPTIED.(hash := BlockHash(15), hashOf := Some(15),
                              flights := map[1 := Flying(BY_FIFTEEN, Scanning(5, 0, 0)).(since := 1), 2 := ONWARD])

  lemma FirstHashFollows()
    ensures After(EMPTIED, [WriteHash(0), Fetch(1)], SEVEN) == REPLAYING
  {
    SevenIsOk();
    AfterTwo(EMPTIED, WriteHash(0), Fetch(1), SEVEN);
    assert {} + Forgets(HashWritten(EMPTIED, EMPTIED.flights[0]), map[], SEVEN) == {};
    var s := Move(EMPTIED, WriteHash(0), SEVEN);
    assert s == EMPTIED.(hash := BlockHash(15), hashOf := Some(15), flights := EMPTIED.flights - {0});
    assert Move(s, Fetch(1), SEVEN).flights == REPLAYING.flights;
  }

  /** The cursor of block 15 beside its hash, nothing in flight, nothing applied. */
  const PASSED_OVER := EMPTIED.(hash := BlockHash(15), hashOf := Some(15), flights := map[])

  lemma StaleCursorIsLast()
    ensures After(REPLAYING, [WriteCursor(1), WriteHash(1)] + [WriteCursor(2), WriteHash(2)], SEVEN) == PASSED_OVER
  {
    AfterBoth(REPLAYING, [WriteCursor(1), WriteHash(1)], [WriteCursor(2), WriteHash(2)], SEVEN);
    var f := Flying(BY_FIFTEEN, Scanning(5, 0, 0)).(since := 1);
    EndsItsChunk(REPLAYING, 1, f, SEVEN);
    assert REPLAYING.flights - {1} == map[2 := ONWARD];
    var s := REPLAYING.(cursor := Some(5), cursorSince := 1, hash := BlockHash(5), hashOf := Some(5),
                        flights := map[2 := ONWARD]);
    EndsItsChunk(s, 2, ONWARD, SEVEN);
    assert s.flights - {2} == map[];
  }

  const WIPING: seq<Step> := TOGETHER + [WriteCursor(0), Enter(1, BY_FIFTEEN), Look(1)]
  const ENDING: seq<Step> :=
    [WriteHash(0), Fetch(1)] + ([WriteCursor(1), WriteHash(1)] + [WriteCursor(2), WriteHash(2)])

  const CROSSING: seq<Step> := FIRST_PASS + SECOND_PASS + WIPING + ENDING

  lemma CrossingPassesOver()
    ensures After(FRESH, CROSSING, SEVEN) == PASSED_OVER
  {
    AfterBoth(FRESH, FIRST_PASS + SECOND_PASS + WIPING, ENDING, SEVEN);
    AfterBoth(FRESH, FIRST_PASS + SECOND_PASS, WIPING, SEVEN);
    AfterBoth(FRESH, FIRST_PASS, SECOND_PASS, SEVEN);
    FirstPassAlone();
    SecondPassAlone();
    WipedWhileTwoFly();
    AfterBoth(EMPTIED, [WriteHash(0), Fetch(1)], [WriteCursor(1), WriteHash(1)] + [WriteCursor(2), WriteHash(2)],
              SEVEN);
    FirstHashFollows();
    StaleCursorIsLast();
  }

  lemma CrossingIsPeaceful()
    ensures Peaceful([NothingYet(SEVEN, SHORT)] + CROSSING, SEVEN)
  {
    SevenIsOk();
    NothingYetIsNothing(SEVEN, SHORT);
    NodeServes(SEVEN, 0, -1);
    NodeServes(SEVEN, 10, -1);
    NodeServes(SEVEN, 15, -1);
  }

  // ---- and no step is to blame ----

  const RUN: seq<Step> := [NothingYet(SEVEN, SHORT)] + CROSSING

  /** The one `Mark` and the one `Apply` of the run are the second pass's. */
  lemma OneApply(n: nat)
    requires n < |RUN|
    ensures RUN[n].Mark? ==> n < 13
    ensures RUN[n].Apply? ==> n == 9
  {
  }

  lemma NoMarkIsStray()
    ensures NoneStray(FRESH, RUN, SEVEN)
  {
    var steps := [NothingYet(SEVEN, SHORT)] + (FIRST_PASS + SECOND_PASS);
    AfterNothing(FIRST_PASS + SECOND_PASS, SEVEN, SHORT);
    AfterBoth(FRESH, FIRST_PASS, SECOND_PASS, SEVEN);
    FirstPassAlone();
    SecondPassAlone();
    CrossingIsPeaceful();
    assert RUN == steps + (WIPING + ENDING);
    assert forall i :: 0 <= i < |steps| ==> steps[i] == RUN[i];
    UnwipedPassesNothingOver(steps, SEVEN, 1);
    forall n: nat | n < |RUN|
      ensures !StrayAt(FRESH, RUN, n, SEVEN)
    {
      OneApply(n);
      if n < 13 {
        assert RUN[..n] == steps[..n] && !StrayAt(FRESH, steps, n, SEVEN);
      }
    }
  }

  lemma NoApplyIsLate(n: nat)
    requires n < |RUN|
    ensures !LateAt(FRESH, RUN, n, SEVEN)
  {
    OneApply(n);
    if n == 9 {
      var a := [Enter(0, BY_TEN), Look(0), Fetch(0)];
      var steps := FIRST_PASS + (a + [Check(0)]);
      assert RUN[..9] == [NothingYet(SEVEN, SHORT)] + steps;
      AfterNothing(steps, SEVEN, SHORT);
      AfterBoth(FRESH, FIRST_PASS, a + [Check(0)], SEVEN);
      FirstPassAlone();
      SecondSetsOff();
      assert (a + [Check(0)])[..3] == a;
      TakesInHand(BEFORE_IT, 0, FlyingFrom(BY_TEN, 5, Scanning(10, 0, 1)), SEVEN);
    }
  }

  /** Two passes in turn apply the log of block 7. Then three cross: one wipes, and another
      that set out before the wipe writes the cursor past block 7 last. The index is empty
      behind the right hash, and no later pass comes back for the log. */
  lemma LogIsPassedOver()
    ensures Peaceful(RUN, SEVEN) && NoneStray(FRESH, RUN, SEVEN)
    ensures forall n: nat :: n < |RUN| ==> !LateAt(FRESH, RUN, n, SEVEN)
    ensures
      var s := After(FRESH, RUN, SEVEN);
      && s.wipes == 1 && s.flights == map[] && s.applied == [] && s.tables.scores == map[]
      && s.markers == map[] && s.forgotten == {} && s.cursor == Some(15) && s.hash == BlockHash(15)
      && Lost(s, 0, SEVEN)
  {
    SevenIsOk();
    CrossingIsPeaceful();
    NoMarkIsStray();
    forall n: nat | n < |RUN|
      ensures !LateAt(FRESH, RUN, n, SEVEN)
    {
      NoApplyIsLate(n);
    }
    AfterNothing(CROSSING, SEVEN, SHORT);
    CrossingPassesOver();
    LostIff(RUN, 0, SEVEN, 1);
  }
}
