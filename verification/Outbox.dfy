/** The alert outbox as a state machine: inserts, retention, reorg clean-up and
    any number of overlapping webhook polls, interleaved at every point where
    the dispatcher waits for a subscriber. */
module Outbox {

  import opened Alerts

  /** A poll in flight: the cursor it last wrote or started from, the alerts it
      still holds, and whether the subscriber has acknowledged the first of them. */
  datatype Poll = Poll(lastId: nat, rest: seq<Alert>, accepted: bool)

  /** What outsiders can see: acknowledgements, and cursor writes. */
  datatype Event = Acked(id: nat) | Written(id: nat)

  datatype State = State(table: Table, cursor: nat, streak: nat, nextAttempt: int,
                         polls: map<nat, Poll>, log: seq<Event>, retracted: set<nat>)

  const START := State(Table([], 0), 0, 0, 0, map[], [], {})

  datatype Step =
    | Insert(kind: string, blockNumber: nat, txHash: nat)
    | Start(poll: nat, now: int, maxPerPoll: int)
    | Accept(poll: nat)
    | Commit(poll: nat)
    | Refuse(poll: nat, now: int, pollMs: nat)
    | Retain(keep: int)
    | Reorg(fromBlock: nat)
    | Crash

  const MAX_BACKOFF_MS: nat := 300_000

  function Pow2(n: nat): (p: nat)
    ensures p >= 1
  {
    if n == 0 then 1 else 2 * Pow2(n - 1)
  }

  /** Wait after the `streak`-th failure in a row. */
  function Backoff(pollMs: nat, streak: nat): nat
  {
    if pollMs * Pow2(streak) < MAX_BACKOFF_MS then pollMs * Pow2(streak) else MAX_BACKOFF_MS
  }

  function Orphans(rows: seq<Alert>, fromBlock: nat): set<nat>
  {
    set r | r in rows && r.blockNumber >= fromBlock :: r.id
  }

  /** One step; a step that is not enabled changes nothing. */
  function Apply(s: State, step: Step): State
  {
    match step
    case Insert(kind, blockNumber, txHash) => s.(table := Record(s.table, kind, blockNumber, txHash))
    case Start(poll, now, maxPerPoll) =>
      var batch := Batch(s.table.rows, s.cursor, SafeLimit(maxPerPoll));
      if poll in s.polls || now < s.nextAttempt || batch == [] then s
      else s.(polls := s.polls[poll := Poll(s.cursor, batch, false)])
    case Accept(poll) =>
      if poll !in s.polls || s.polls[poll].accepted || s.polls[poll].rest == [] then s
      else s.(polls := s.polls[poll := s.polls[poll].(accepted := true)],
              log := s.log + [Acked(s.polls[poll].rest[0].id)])
    case Commit(poll) =>
      if poll !in s.polls || !s.polls[poll].accepted || s.polls[poll].rest == [] then s
      else
        var p := s.polls[poll];
        var id := p.rest[0].id;
        var polls' := if |p.rest| == 1 then s.polls - {poll} else s.polls[poll := Poll(id, p.rest[1..], false)];
        s.(cursor := id, streak := 0, nextAttempt := 0, polls := polls', log := s.log + [Written(id)])
    case Refuse(poll, now, pollMs) =>
      if poll !in s.polls then s
      else s.(streak := s.streak + 1, nextAttempt := now + Backoff(pollMs, s.streak + 1), polls := s.polls - {poll})
    case Retain(keep) => s.(table := Prune(s.table, keep, s.cursor))
    case Reorg(fromBlock) =>
      s.(table := DropFrom(s.table, fromBlock), retracted := s.retracted + Orphans(s.table.rows, fromBlock))
    case Crash => s.(polls := map[])
  }

  function Run(s: State, steps: seq<Step>): State
  {
    if steps == [] then s else Apply(Run(s, steps[..|steps| - 1]), steps[|steps| - 1])
  }

  // ---- safety under every interleaving ----

  /** The subscriber has acknowledged the alert, or a reorg took it back. */
  ghost predicate Settled(s: State, id: nat)
  {
    Acked(id) in s.log || id in s.retracted
  }

  /** A poll's snapshot stays good: everything up to where it stands is settled,
      and everything in the stretch it holds is settled or in its hands. */
  ghost predicate PollSound(s: State, p: Poll)
  {
    && p.rest != [] && Ordered(p.rest)
    && p.lastId < p.rest[0].id && p.rest[|p.rest| - 1].id <= s.table.lastId
    && (forall id: nat :: 1 <= id <= p.lastId ==> Settled(s, id))
    && (forall id: nat :: p.lastId < id <= p.rest[|p.rest| - 1].id ==> Settled(s, id) || Stored(p.rest, id))
    && (p.accepted ==> Acked(p.rest[0].id) in s.log)
  }

  ghost predicate Safe(s: State)
  {
    && Valid(s.table) && s.cursor <= s.table.lastId
    && (forall id: nat :: 1 <= id <= s.cursor ==> Settled(s, id))
    && (forall id: nat :: 1 <= id <= s.table.lastId ==> Stored(s.table.rows, id) || Settled(s, id))
    && (forall p :: p in s.polls ==> PollSound(s, s.polls[p]))
  }

  /** Settled alerts stay settled, and ids already handed out stay handed out. */
  ghost predicate Grows(s: State, s': State)
  {
    && s.table.lastId <= s'.table.lastId
    && (forall e :: e in s.log ==> e in s'.log)
    && s.retracted <= s'.retracted
  }

  lemma SoundPollStaysSound(s: State, s': State, p: Poll)
    requires PollSound(s, p) && Grows(s, s')
    ensures PollSound(s', p)
  {
    forall id: nat | Settled(s, id)
      ensures Settled(s', id)
    {
    }
  }

  /** Steps that leave table, cursor and the other polls alone. */
  lemma SafeKept(s: State, s': State)
    requires Safe(s) && Grows(s, s')
    requires s'.table == s.table && s'.cursor == s.cursor
    requires forall p :: p in s'.polls ==> (p in s.polls && s'.polls[p] == s.polls[p]) || PollSound(s', s'.polls[p])
    ensures Safe(s')
  {
    forall id: nat | Settled(s, id)
      ensures Settled(s', id)
    {
    }
    forall p | p in s'.polls
      ensures PollSound(s', s'.polls[p])
    {
      if p in s.polls && s'.polls[p] == s.polls[p] {
        SoundPollStaysSound(s, s', s.polls[p]);
      }
    }
  }

  lemma InsertSafe(s: State, kind: string, blockNumber: nat, txHash: nat)
    requires Safe(s)
    ensures Safe(Apply(s, Insert(kind, blockNumber, txHash)))
  {
    var s' := Apply(s, Insert(kind, blockNumber, txHash));
    RecordValid(s.table, kind, blockNumber, txHash);
    assert forall id: nat :: Settled(s, id) ==> Settled(s', id);
    assert forall r :: r in s.table.rows ==> r in s'.table.rows;
    forall id: nat | 1 <= id <= s'.table.lastId
      ensures Stored(s'.table.rows, id) || Settled(s', id)
    {
      if id <= s.table.lastId {
        assert Stored(s.table.rows, id) || Settled(s, id);
      } else {
        assert s'.table.rows[|s.table.rows|] in s'.table.rows;
      }
    }
    forall p | p in s'.polls
      ensures PollSound(s', s'.polls[p])
    {
      SoundPollStaysSound(s, s', s.polls[p]);
    }
  }

  /** A fresh batch: what is stored above the cursor and not in it lies beyond it. */
  lemma StartSafe(s: State, poll: nat, now: int, maxPerPoll: int)
    requires Safe(s)
    ensures Safe(Apply(s, Start(poll, now, maxPerPoll)))
  {
    var s' := Apply(s, Start(poll, now, maxPerPoll));
    var batch := Batch(s.table.rows, s.cursor, SafeLimit(maxPerPoll));
    if s' != s {
      BatchIsOldest(s.table.rows, s.cursor, SafeLimit(maxPerPoll));
      LastIn(batch, s.table.rows);
      var p := Poll(s.cursor, batch, false);
      assert batch[0] in batch;
      forall id: nat | p.lastId < id <= batch[|batch| - 1].id
        ensures Settled(s', id) || Stored(batch, id)
      {
        assert Stored(s.table.rows, id) || Settled(s, id);
        if Stored(s.table.rows, id) {
          var r :| r in s.table.rows && r.id == id;
          assert r in batch;
        }
      }
      assert forall id: nat :: Settled(s, id) ==> Settled(s', id);
      assert PollSound(s', p);
      SafeKept(s, s');
    }
  }

  lemma AcceptSafe(s: State, poll: nat)
    requires Safe(s)
    ensures Safe(Apply(s, Accept(poll)))
  {
    var s' := Apply(s, Accept(poll));
    if s' != s {
      var p := s.polls[poll];
      assert PollSound(s, p);
      SoundPollStaysSound(s, s', p);
      assert PollSound(s', p.(accepted := true));
      SafeKept(s, s');
    }
  }

  /** Writing the cursor, forwards or back, lands on an id below which all is settled. */
  lemma CommitSafe(s: State, poll: nat)
    requires Safe(s)
    ensures Safe(Apply(s, Commit(poll)))
  {
    var s' := Apply(s, Commit(poll));
    if s' != s {
      var p := s.polls[poll];
      var id0 := p.rest[0].id;
      assert PollSound(s, p);
      HeadSettled(s, p);
      assert forall id: nat :: Settled(s, id) ==> Settled(s', id);
      forall q | q in s'.polls
        ensures PollSound(s', s'.polls[q])
      {
        if q == poll {
          NextSound(s, s', p);
        } else {
          SoundPollStaysSound(s, s', s.polls[q]);
        }
      }
    }
  }

  /** Once its first alert is acknowledged, everything up to that alert is settled. */
  lemma HeadSettled(s: State, p: Poll)
    requires PollSound(s, p) && p.accepted
    ensures forall id: nat :: 1 <= id <= p.rest[0].id ==> Settled(s, id)
  {
    forall id: nat | 1 <= id <= p.rest[0].id
      ensures Settled(s, id)
    {
      if p.lastId < id < p.rest[0].id {
        OrderedTail(p.rest);
        HeadIsLeast(p.rest);
        assert Settled(s, id) || Stored(p.rest, id);
      }
    }
  }

  lemma HeadIsLeast(rows: seq<Alert>)
    requires Ordered(rows) && rows != []
    ensures forall r :: r in rows ==> rows[0].id <= r.id
    ensures forall id: nat :: Stored(rows, id) ==> rows[0].id <= id
  {
  }

  lemma NextSound(s: State, s': State, p: Poll)
    requires PollSound(s, p) && p.accepted && Grows(s, s') && |p.rest| > 1
    ensures PollSound(s', Poll(p.rest[0].id, p.rest[1..], false))
  {
    HeadSettled(s, p);
    OrderedTail(p.rest);
    assert forall id: nat :: Settled(s, id) ==> Settled(s', id);
    var rest := p.rest[1..];
    assert rest[|rest| - 1] == p.rest[|p.rest| - 1];
    assert rest[0] in rest;
    forall id: nat | p.rest[0].id < id <= rest[|rest| - 1].id
      ensures Settled(s', id) || Stored(rest, id)
    {
      assert Settled(s, id) || Stored(p.rest, id);
      if Stored(p.rest, id) {
        var r :| r in p.rest && r.id == id;
        assert r in rest;
      }
    }
  }

  /** Retention deletes only what the cursor has passed, so only settled alerts. */
  lemma RetainSafe(s: State, keep: int)
    requires Safe(s)
    ensures Safe(Apply(s, Retain(keep)))
  {
    var s' := Apply(s, Retain(keep));
    var retained := Retained(s.table.rows, keep, s.cursor);
    if keep > 0 {
      FilterValid(s.table, retained);
      assert forall id: nat :: Settled(s, id) ==> Settled(s', id);
      forall id: nat | 1 <= id <= s'.table.lastId
        ensures Stored(s'.table.rows, id) || Settled(s', id)
      {
        assert Stored(s.table.rows, id) || Settled(s, id);
        if !Settled(s, id) {
          var r :| r in s.table.rows && r.id == id;
          assert r in s'.table.rows;
        }
      }
      forall p | p in s'.polls
        ensures PollSound(s', s'.polls[p])
      {
        SoundPollStaysSound(s, s', s.polls[p]);
      }
    }
  }

  lemma ReorgSafe(s: State, fromBlock: nat)
    requires Safe(s)
    ensures Safe(Apply(s, Reorg(fromBlock)))
  {
    var s' := Apply(s, Reorg(fromBlock));
    FilterValid(s.table, (r: Alert) => r.blockNumber < fromBlock);
    assert forall id: nat :: Settled(s, id) ==> Settled(s', id);
    forall id: nat | 1 <= id <= s'.table.lastId
      ensures Stored(s'.table.rows, id) || Settled(s', id)
    {
      assert Stored(s.table.rows, id) || Settled(s, id);
      if !Settled(s, id) {
        var r :| r in s.table.rows && r.id == id;
        if r.blockNumber < fromBlock {
          assert r in s'.table.rows;
        } else {
          assert id in s'.retracted;
        }
      }
    }
    forall p | p in s'.polls
      ensures PollSound(s', s'.polls[p])
    {
      SoundPollStaysSound(s, s', s.polls[p]);
    }
  }

  lemma StepSafe(s: State, step: Step)
    requires Safe(s)
    ensures Safe(Apply(s, step))
  {
    match step {
      case Insert(kind, blockNumber, txHash) => InsertSafe(s, kind, blockNumber, txHash);
      case Start(poll, now, maxPerPoll) => StartSafe(s, poll, now, maxPerPoll);
      case Accept(poll) => AcceptSafe(s, poll);
      case Commit(poll) => CommitSafe(s, poll);
      case Refuse(poll, now, pollMs) => SafeKept(s, Apply(s, step));
      case Retain(keep) => RetainSafe(s, keep);
      case Reorg(fromBlock) => ReorgSafe(s, fromBlock);
      case Crash => SafeKept(s, Apply(s, step));
    }
  }

  lemma {:induction false} RunSafe(steps: seq<Step>)
    ensures Safe(Run(START, steps))
  {
    if steps != [] {
      RunSafe(steps[..|steps| - 1]);
      StepSafe(Run(START, steps[..|steps| - 1]), steps[|steps| - 1]);
    }
  }

  /** However polls overlap, crash and fail, and wherever the cursor is moved:
      every alert at or below it was acknowledged or retracted. */
  lemma CursorNeverSkips(steps: seq<Step>, id: nat)
    ensures var s := Run(START, steps);
      1 <= id <= s.cursor ==> Acked(id) in s.log || id in s.retracted
  {
    RunSafe(steps);
    assert 1 <= id <= Run(START, steps).cursor ==> Settled(Run(START, steps), id);
  }

  /** No recorded alert is ever lost: it is still stored, or was acknowledged, or was retracted. */
  lemma NothingLost(steps: seq<Step>, id: nat)
    ensures var s := Run(START, steps);
      1 <= id <= s.table.lastId ==> Stored(s.table.rows, id) || Acked(id) in s.log || id in s.retracted
  {
    RunSafe(steps);
    var s := Run(START, steps);
    assert 1 <= id <= s.table.lastId ==> Stored(s.table.rows, id) || Settled(s, id);
  }

  /** Every run keeps one stored alert per event. */
  lemma {:induction false} EventsUniqueInEveryRun(steps: seq<Step>)
    ensures EventsUnique(Run(START, steps).table.rows)
  {
    if steps != [] {
      var before := steps[..|steps| - 1];
      EventsUniqueInEveryRun(before);
      RunSafe(before);
      var s, step := Run(START, before), steps[|steps| - 1];
      match step {
        case Insert(kind, blockNumber, txHash) => RecordValid(s.table, kind, blockNumber, txHash);
        case _ =>
      }
    }
  }

  /** Two alerts, two polls that start together: the slower one writes the cursor back. */
  const FIRST_ALERT := Alert(1, "a", 1, 1)
  const SECOND_ALERT := Alert(2, "b", 1, 2)
  const FAST_HALF: seq<Step> :=
    [Insert("a", 1, 1), Insert("b", 1, 2), Start(0, 0, 25), Start(1, 0, 25), Accept(0), Commit(0), Accept(0), Commit(0)]
  const SLOW_HALF: seq<Step> := [Accept(1), Commit(1)]

  lemma RunPrefix(s: State, steps: seq<Step>, k: nat)
    requires k < |steps|
    ensures Run(s, steps[..k + 1]) == Apply(Run(s, steps[..k]), steps[k])
  {
    assert steps[..k + 1][..k] == steps[..k];
  }

  lemma TwoRowBatch()
    ensures Batch([FIRST_ALERT, SECOND_ALERT], 0, SafeLimit(25)) == [FIRST_ALERT, SECOND_ALERT]
  {
    assert [FIRST_ALERT, SECOND_ALERT][1..] == [SECOND_ALERT];
    assert [SECOND_ALERT][1..] == [];
    assert Batch([SECOND_ALERT], 0, 24) == [SECOND_ALERT] + Batch([], 0, 23);
  }

  function BothAlerts(cursor: nat, polls: map<nat, Poll>, log: seq<Event>): State
  {
    State(Table([FIRST_ALERT, SECOND_ALERT], 2), cursor, 0, 0, polls, log, {})
  }

  lemma TwoPollsStart()
    ensures var p := Poll(0, [FIRST_ALERT, SECOND_ALERT], false);
      Run(START, FAST_HALF[..4]) == BothAlerts(0, map[0 := p, 1 := p], [])
  {
    var p := Poll(0, [FIRST_ALERT, SECOND_ALERT], false);
    var s1 := START.(table := Table([FIRST_ALERT], 1));
    assert Apply(START, Insert("a", 1, 1)) == s1 by {
      assert !Known([], "a", 1, 1);
    }
    var s2 := BothAlerts(0, map[], []);
    assert Apply(s1, Insert("b", 1, 2)) == s2 by {
      assert !Known([FIRST_ALERT], "b", 1, 2);
    }
    TwoRowBatch();
    var s3 := BothAlerts(0, map[0 := p], []);
    assert Apply(s2, Start(0, 0, 25)) == s3;
    var s4 := BothAlerts(0, map[0 := p, 1 := p], []);
    assert Apply(s3, Start(1, 0, 25)) == s4;
    RunPrefix(START, FAST_HALF, 0);
    RunPrefix(START, FAST_HALF, 1);
    RunPrefix(START, FAST_HALF, 2);
    RunPrefix(START, FAST_HALF, 3);
  }

  lemma FastPollDelivers()
    ensures
      var p := Poll(0, [FIRST_ALERT, SECOND_ALERT], false);
      Run(START, FAST_HALF[..6]) == BothAlerts(1, map[0 := Poll(1, [SECOND_ALERT], false), 1 := p],
                                               [Acked(1), Written(1)])
  {
    TwoPollsStart();
    var p := Poll(0, [FIRST_ALERT, SECOND_ALERT], false);
    var s4 := Run(START, FAST_HALF[..4]);
    var s5 := BothAlerts(0, map[0 := p.(accepted := true), 1 := p], [Acked(1)]);
    assert Apply(s4, Accept(0)) == s5;
    assert [FIRST_ALERT, SECOND_ALERT][1..] == [SECOND_ALERT];
    assert Apply(s5, Commit(0)) == BothAlerts(1, map[0 := Poll(1, [SECOND_ALERT], false), 1 := p],
                                              [Acked(1), Written(1)]);
    RunPrefix(START, FAST_HALF, 4);
    RunPrefix(START, FAST_HALF, 5);
  }

  lemma FastPollFinishes()
    ensures Run(START, FAST_HALF)
         == BothAlerts(2, map[1 := Poll(0, [FIRST_ALERT, SECOND_ALERT], false)],
                       [Acked(1), Written(1), Acked(2), Written(2)])
  {
    FastPollDelivers();
    var p, q := Poll(0, [FIRST_ALERT, SECOND_ALERT], false), Poll(1, [SECOND_ALERT], false);
    var s6 := Run(START, FAST_HALF[..6]);
    var s7 := BothAlerts(1, map[0 := q.(accepted := true), 1 := p], [Acked(1), Written(1), Acked(2)]);
    assert Apply(s6, Accept(0)) == s7;
    var s8 := BothAlerts(2, map[1 := p], [Acked(1), Written(1), Acked(2), Written(2)]);
    assert Apply(s7, Commit(0)) == s8 by {
      assert s7.polls - {0} == map[1 := p];
    }
    RunPrefix(START, FAST_HALF, 6);
    RunPrefix(START, FAST_HALF, 7);
    assert FAST_HALF[..8] == FAST_HALF;
  }

  /** The cursor really does move back in an ordinary run: from 2 to 1. */
  lemma CursorCanMoveBack()
    ensures Run(START, FAST_HALF).cursor == 2
    ensures Run(START, FAST_HALF + SLOW_HALF).cursor == 1
  {
    FastPollFinishes();
    var all := FAST_HALF + SLOW_HALF;
    assert all[..9] == FAST_HALF + [Accept(1)] && all[..9][..8] == FAST_HALF;
    assert all[..10] == all;
  }

  // ---- one poll at a time ----

  /** The dispatcher starts a poll only when none is in flight. */
  ghost predicate OneAtATime(steps: seq<Step>)
  {
    forall n :: 0 <= n < |steps| && steps[n].Start? ==> Run(START, steps[..n]).polls == map[]
  }

  /** Ids never go back, and once an id is written to the cursor only higher
      ones follow: an acknowledgement repeats only while its write is missing. */
  ghost predicate InOrder(log: seq<Event>)
  {
    forall i, j :: 0 <= i < j < |log| ==>
      log[i].id <= log[j].id && (log[i].Written? ==> log[i].id < log[j].id)
  }

  /** The one poll holds every stored alert of its stretch, and nothing it will
      send was sent after. */
  ghost predicate SerialPoll(s: State, p: Poll)
  {
    && p.rest != [] && p.lastId == s.cursor
    && (forall r :: r in s.table.rows && s.cursor < r.id <= p.rest[|p.rest| - 1].id ==> r in p.rest)
    && (forall e :: e in s.log ==> e.id <= p.rest[0].id)
  }

  ghost predicate Serial(s: State)
  {
    && Safe(s)
    && (forall p, q :: p in s.polls && q in s.polls ==> p == q)
    && (forall p :: p in s.polls ==> PollSound(s, s.polls[p]) && SerialPoll(s, s.polls[p]))
    && InOrder(s.log)
    && LogBehind(s)
  }

  /** What was sent is not above what is still to send. */
  ghost predicate LogBehind(s: State)
  {
    && (forall e :: e in s.log ==> e.id <= s.table.lastId && (e.Written? ==> e.id <= s.cursor))
    && (forall e, r :: e in s.log && r in s.table.rows && r.id > s.cursor ==> e.id <= r.id)
  }

  lemma LogGrows(log: seq<Event>, e: Event)
    requires InOrder(log)
    requires forall f :: f in log ==> f.id <= e.id && (f.Written? ==> f.id < e.id)
    ensures InOrder(log + [e])
  {
    forall i, j | 0 <= i < j < |log + [e]|
      ensures (log + [e])[i].id <= (log + [e])[j].id
      ensures (log + [e])[i].Written? ==> (log + [e])[i].id < (log + [e])[j].id
    {
      if j == |log| {
        assert log[i] in log;
      }
    }
  }

  lemma StartSerial(s: State, poll: nat, now: int, maxPerPoll: int)
    requires Serial(s) && s.polls == map[]
    ensures Serial(Apply(s, Start(poll, now, maxPerPoll)))
  {
    StepSafe(s, Start(poll, now, maxPerPoll));
    var s' := Apply(s, Start(poll, now, maxPerPoll));
    if s' != s {
      var batch := Batch(s.table.rows, s.cursor, SafeLimit(maxPerPoll));
      BatchIsOldest(s.table.rows, s.cursor, SafeLimit(maxPerPoll));
      assert batch[0] in batch;
      assert SerialPoll(s', s'.polls[poll]);
    }
  }

  /** While a poll is out, every stored alert above the cursor is at or past its first. */
  lemma NothingBeforeHead(s: State, p: Poll, r: Alert)
    requires PollSound(s, p) && SerialPoll(s, p)
    requires r in s.table.rows && r.id > s.cursor
    ensures p.rest[0].id <= r.id
  {
    HeadIsLeast(p.rest);
    LastIsGreatest(p.rest);
  }

  lemma AcceptKeepsLogBehind(s: State, s': State, p: Poll)
    requires LogBehind(s) && PollSound(s, p) && SerialPoll(s, p)
    requires s'.table == s.table && s'.cursor == s.cursor && s'.log == s.log + [Acked(p.rest[0].id)]
    ensures LogBehind(s')
  {
    LastIsGreatest(p.rest);
    assert p.rest[0] in p.rest;
    forall r | r in s'.table.rows && r.id > s'.cursor
      ensures p.rest[0].id <= r.id
    {
      NothingBeforeHead(s, p, r);
    }
  }

  lemma AcceptSerial(s: State, poll: nat)
    requires Serial(s)
    ensures Serial(Apply(s, Accept(poll)))
  {
    StepSafe(s, Accept(poll));
    var s' := Apply(s, Accept(poll));
    if s' != s {
      var p := s.polls[poll];
      assert PollSound(s, p) && SerialPoll(s, p);
      LogGrows(s.log, Acked(p.rest[0].id));
      AcceptKeepsLogBehind(s, s', p);
      assert PollSound(s', s'.polls[poll]);
      assert SerialPoll(s', s'.polls[poll]);
    }
  }

  lemma LastIsGreatest(rows: seq<Alert>)
    requires Ordered(rows) && rows != []
    ensures forall r :: r in rows ==> r.id <= rows[|rows| - 1].id
  {
  }

  lemma RestSerial(s: State, s': State, p: Poll)
    requires PollSound(s, p) && SerialPoll(s, p) && |p.rest| > 1
    requires s'.table == s.table && s'.cursor == p.rest[0].id && s'.log == s.log + [Written(p.rest[0].id)]
    ensures SerialPoll(s', Poll(p.rest[0].id, p.rest[1..], false))
  {
    OrderedTail(p.rest);
    var rest := p.rest[1..];
    assert rest[0] in rest;
    assert rest[|rest| - 1] == p.rest[|p.rest| - 1];
  }

  lemma CommitSerial(s: State, poll: nat)
    requires Serial(s)
    ensures Serial(Apply(s, Commit(poll)))
  {
    StepSafe(s, Commit(poll));
    var s' := Apply(s, Commit(poll));
    if s' != s {
      var p := s.polls[poll];
      var e0 := Written(p.rest[0].id);
      assert PollSound(s, p) && SerialPoll(s, p);
      LogGrows(s.log, e0);
      assert forall e :: e in s'.log <==> e in s.log || e == e0;
      if |p.rest| > 1 {
        RestSerial(s, s', p);
        assert PollSound(s', s'.polls[poll]);
      }
    }
  }

  lemma RowsShrinkSerial(s: State, s': State)
    requires Serial(s) && Safe(s')
    requires s'.polls == s.polls && s'.cursor == s.cursor && s'.log == s.log && s'.table.lastId == s.table.lastId
    requires forall r :: r in s'.table.rows ==> r in s.table.rows
    ensures Serial(s')
  {
    forall p | p in s'.polls
      ensures PollSound(s', s'.polls[p]) && SerialPoll(s', s'.polls[p])
    {
      assert SerialPoll(s, s.polls[p]);
    }
  }

  lemma InsertSerial(s: State, kind: string, blockNumber: nat, txHash: nat)
    requires Serial(s)
    ensures Serial(Apply(s, Insert(kind, blockNumber, txHash)))
  {
    StepSafe(s, Insert(kind, blockNumber, txHash));
    var s' := Apply(s, Insert(kind, blockNumber, txHash));
    forall r | r in s'.table.rows
      ensures r in s.table.rows || r.id == s.table.lastId + 1
    {
    }
    forall p | p in s'.polls
      ensures PollSound(s', s'.polls[p]) && SerialPoll(s', s'.polls[p])
    {
      assert SerialPoll(s, s.polls[p]) && PollSound(s, s.polls[p]);
    }
  }

  lemma StepSerial(s: State, step: Step)
    requires Serial(s) && (step.Start? ==> s.polls == map[])
    ensures Serial(Apply(s, step))
  {
    StepSafe(s, step);
    match step {
      case Insert(kind, blockNumber, txHash) => InsertSerial(s, kind, blockNumber, txHash);
      case Start(poll, now, maxPerPoll) => StartSerial(s, poll, now, maxPerPoll);
      case Accept(poll) => AcceptSerial(s, poll);
      case Commit(poll) => CommitSerial(s, poll);
      case Refuse(poll, now, pollMs) =>
        forall p | p in Apply(s, step).polls
          ensures SerialPoll(Apply(s, step), s.polls[p])
        {
          assert SerialPoll(s, s.polls[p]);
        }
      case Retain(keep) => RowsShrinkSerial(s, Apply(s, step));
      case Reorg(fromBlock) => RowsShrinkSerial(s, Apply(s, step));
      case Crash =>
    }
  }

  lemma {:induction false} SerialRun(steps: seq<Step>)
    requires OneAtATime(steps)
    ensures Serial(Run(START, steps))
  {
    if steps != [] {
      var n := |steps| - 1;
      assert forall m :: 0 <= m < n ==> steps[..n][..m] == steps[..m];
      SerialRun(steps[..n]);
      StepSerial(Run(START, steps[..n]), steps[n]);
    }
  }

  /** Ordered at-least-once delivery, for every run without overlapping polls:
      acknowledgements come in id order and repeat only when the write between was lost. */
  lemma DeliveredInOrder(steps: seq<Step>, i: nat, j: nat)
    requires OneAtATime(steps)
    ensures var log := Run(START, steps).log;
      i < j < |log| ==> log[i].id <= log[j].id && (log[i].Written? ==> log[i].id < log[j].id)
  {
    SerialRun(steps);
  }

  // ---- after a refusal ----

  predicate StoredOrRetracted(s: State, id: nat)
  {
    Stored(s.table.rows, id) || id in s.retracted
  }

  /** Whatever a poll still holds is stored, or a reorg took it back. */
  ghost predicate HeldStored(s: State)
  {
    forall p, r :: p in s.polls && r in s.polls[p].rest ==> StoredOrRetracted(s, r.id)
  }

  /** Only a reorg takes a row above the cursor away. */
  lemma RowsKept(s: State, step: Step, id: nat)
    requires StoredOrRetracted(s, id) && id > s.cursor
    ensures StoredOrRetracted(Apply(s, step), id)
  {
    if Stored(s.table.rows, id) {
      var r :| r in s.table.rows && r.id == id;
      match step {
        case Insert(kind, blockNumber, txHash) =>
          assert r in Record(s.table, kind, blockNumber, txHash).rows;
        case Retain(keep) =>
          assert keep > 0 ==> Retained(s.table.rows, keep, s.cursor)(r);
          assert r in Prune(s.table, keep, s.cursor).rows;
        case Reorg(fromBlock) =>
          assert r.blockNumber < fromBlock ==> r in DropFrom(s.table, fromBlock).rows;
          assert r.blockNumber >= fromBlock ==> r.id in Orphans(s.table.rows, fromBlock);
        case _ =>
      }
    }
  }

  /** What is held after a step was held before it, or comes from the table. */
  lemma HeldBefore(s: State, step: Step, p: nat, r: Alert)
    requires Serial(s) && p in Apply(s, step).polls && r in Apply(s, step).polls[p].rest
    ensures (p in s.polls && r in s.polls[p].rest) || (step.Start? && r in s.table.rows)
  {
    match step {
      case Start(poll, now, maxPerPoll) => BatchIsOldest(s.table.rows, s.cursor, SafeLimit(maxPerPoll));
      case Commit(poll) =>
      case _ =>
    }
  }

  lemma StepHeld(s: State, step: Step)
    requires Serial(s) && HeldStored(s)
    ensures HeldStored(Apply(s, step))
  {
    var s' := Apply(s, step);
    forall p, r | p in s'.polls && r in s'.polls[p].rest
      ensures StoredOrRetracted(s', r.id)
    {
      HeldBefore(s, step, p, r);
      if p in s.polls && r in s.polls[p].rest {
        assert PollSound(s, s.polls[p]) && SerialPoll(s, s.polls[p]);
        HeadIsLeast(s.polls[p].rest);
        RowsKept(s, step, r.id);
      }
    }
  }

  lemma {:induction false} HeldRun(steps: seq<Step>)
    requires OneAtATime(steps)
    ensures HeldStored(Run(START, steps))
  {
    if steps != [] {
      var n := |steps| - 1;
      forall m | 0 <= m < n && steps[..n][m].Start?
        ensures Run(START, steps[..n][..m]).polls == map[]
      {
        assert steps[..n][..m] == steps[..m];
        assert steps[m].Start?;
      }
      HeldRun(steps[..n]);
      SerialRun(steps[..n]);
      StepHeld(Run(START, steps[..n]), steps[n]);
    }
  }

  /** No poll is out, and `id` is the first alert above the cursor unless it was retracted. */
  ghost predicate Waiting(s: State, id: nat, cursor: nat)
  {
    && s.polls == map[] && Valid(s.table) && s.cursor == cursor < id <= s.table.lastId
    && (forall r :: r in s.table.rows && r.id > cursor ==> r.id >= id)
    && StoredOrRetracted(s, id)
  }

  lemma StepWaiting(s: State, step: Step, id: nat, cursor: nat)
    requires Waiting(s, id, cursor) && !step.Start?
    ensures Waiting(Apply(s, step), id, cursor)
  {
    RowsKept(s, step, id);
    match step {
      case Insert(kind, blockNumber, txHash) => RecordValid(s.table, kind, blockNumber, txHash);
      case Retain(keep) =>
        if keep > 0 {
          FilterValid(s.table, Retained(s.table.rows, keep, s.cursor));
        }
      case Reorg(fromBlock) => FilterValid(s.table, (r: Alert) => r.blockNumber < fromBlock);
      case _ =>
    }
  }

  predicate NoStart(steps: seq<Step>)
  {
    forall k :: 0 <= k < |steps| ==> !steps[k].Start?
  }

  lemma {:induction false} RunWaiting(s: State, between: seq<Step>, id: nat, cursor: nat)
    requires Waiting(s, id, cursor) && NoStart(between)
    ensures Waiting(Run(s, between), id, cursor)
  {
    if between != [] {
      var n := |between| - 1;
      RunWaiting(s, between[..n], id, cursor);
      StepWaiting(Run(s, between[..n]), between[n], id, cursor);
    }
  }

  lemma RefusedWaits(s: State, poll: nat, now: int, pollMs: nat)
    requires Serial(s) && HeldStored(s) && poll in s.polls
    ensures s.polls[poll].rest != []
         && Waiting(Apply(s, Refuse(poll, now, pollMs)), s.polls[poll].rest[0].id, s.cursor)
  {
    var p := s.polls[poll];
    assert PollSound(s, p) && SerialPoll(s, p);
    assert s.polls.Keys == {poll};
    HeadIsLeast(p.rest);
    LastIsGreatest(p.rest);
    assert StoredOrRetracted(s, p.rest[0].id);
    forall r | r in s.table.rows && r.id > s.cursor
      ensures r.id >= p.rest[0].id
    {
      NothingBeforeHead(s, p, r);
    }
  }

  /** After a failed delivery the same alert is the first one the next poll sends,
      whatever inserts, retention, crashes and reorgs come before that poll, unless
      a reorg has retracted it. */
  lemma FailedAlertIsNext(steps: seq<Step>, poll: nat, now: int, pollMs: nat, between: seq<Step>, maxPerPoll: int)
    requires OneAtATime(steps) && poll in Run(START, steps).polls && NoStart(between)
    ensures
      var s := Run(START, steps);
      var failed := s.polls[poll].rest;
      var s' := Run(Apply(s, Refuse(poll, now, pollMs)), between);
      var next := Batch(s'.table.rows, s'.cursor, SafeLimit(maxPerPoll));
      && s'.polls == map[] && s'.cursor == s.cursor && failed != []
      && (failed[0].id in s'.retracted || (next != [] && next[0].id == failed[0].id))
  {
    SerialRun(steps);
    HeldRun(steps);
    var s := Run(START, steps);
    RefusedWaits(s, poll, now, pollMs);
    var id := s.polls[poll].rest[0].id;
    RunWaiting(Apply(s, Refuse(poll, now, pollMs)), between, id, s.cursor);
    var s' := Run(Apply(s, Refuse(poll, now, pollMs)), between);
    FirstIsSent(s', id, s.cursor, SafeLimit(maxPerPoll));
  }

  lemma FirstIsSent(s: State, id: nat, cursor: nat, n: nat)
    requires Waiting(s, id, cursor) && n > 0
    ensures var next := Batch(s.table.rows, s.cursor, n);
      id in s.retracted || (next != [] && next[0].id == id)
  {
    if Stored(s.table.rows, id) {
      var r :| r in s.table.rows && r.id == id;
      var next := Batch(s.table.rows, s.cursor, n);
      BatchIsOldest(s.table.rows, s.cursor, n);
      BatchFinds(s.table.rows, s.cursor, n, r);
      assert next[0] in next;
    }
  }

  lemma {:induction false} BatchFinds(rows: seq<Alert>, afterId: nat, n: nat, r: Alert)
    requires Ordered(rows) && r in rows && r.id > afterId && n > 0
    ensures Batch(rows, afterId, n) != [] && Batch(rows, afterId, n)[0].id <= r.id
  {
    OrderedTail(rows);
    if rows[0].id <= afterId {
      BatchFinds(rows[1..], afterId, n, r);
    }
  }
}
