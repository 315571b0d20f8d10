/** Indexing passes in flight together. A pass is started on a timer, whether or
    not the one before it has ended, and waits for the node at many points; any
    other pass, and a death of the process, may come in between. Here every
    stretch of a pass between two waits is one step, and the theorems are about
    all interleavings. */
module Overlap {

  import opened Parties
  import opened Arithmetic
  import opened Alerts
  import opened IndexDb
  import opened ChainLogs
  import opened IndexTrail

  /** Where a pass is waiting, or about to go on. */
  datatype Phase =
    | Looking(cursor: nat, hash: nat, hashOf: Option<int>)
    | Fetching(to: int)
    | Scanning(to: int, next: nat, hi: nat)
    | Checked(to: int, next: nat, hi: nat)
    | Applied(to: int, next: nat, hi: nat)
    | Hashing(to: int)

  /** A pass in flight. Its own `budget` plays no part here: a death is a step. The
      last four fields are history: whether another pass has applied the log in hand
      since this one checked it, whether it had been applied when this one found no
      marker, how many wipes there had been when this one applied it, and after how
      many wipes it set out, itself or the pass whose cursor it started from. */
  datatype Flight = Flight(pass: Pass, from: int, chunks: nat, phase: Phase, raced: bool, unseen: bool, epoch: nat,
                           since: nat)

  /** The tables, and as history: the positions applied since the last wipe, in that
      order; those of them whose marker retention dropped or a dying process never
      wrote; the block whose hash is stored; the number of wipes; the tables as the
      last of them left them; and after how many of them the pass set out that wrote
      the cursor. */
  datatype Machine = Machine(tables: Tables, alerts: Table, markers: map<LogKey, nat>, cursor: Option<int>, hash: nat,
                             flights: map<nat, Flight>, applied: seq<nat>, forgotten: set<nat>,
                             hashOf: Option<int>, wipes: nat, seed: Tables, cursorSince: nat)

  const FRESH := Machine(NO_TABLES, Table([], 0), map[], None, 0, map[], [], {}, None, 0, NO_TABLES, 0)

  datatype Step =
    | Enter(id: nat, pass: Pass)
    | Look(id: nat)
    | Fetch(id: nat)
    | Check(id: nat)
    | Apply(id: nat)
    | Mark(id: nat)
    | WriteCursor(id: nat)
    | WriteHash(id: nat)
    | Fail(id: nat)
    | Die

  // ---- what each step does ----

  /** Retention at the end of a pass. */
  function Trimmed(s: Machine, opts: PollOptions, chain: seq<Log>): Machine
  {
    var lastBlock := if s.cursor.Some? then s.cursor.value else opts.startBlock;
    var markers := RecentMarkers(s.markers, lastBlock, opts.markerBlocks);
    s.(alerts := Prune(s.alerts, opts.alertsKeep, opts.deliveredUpTo),
       markers := markers,
       forgotten := s.forgotten + Forgets(s, markers, chain))
  }

  function Forgets(s: Machine, markers: map<LogKey, nat>, chain: seq<Log>): set<nat>
  {
    set k | k in s.applied && k < |chain| && chain[k].key in s.markers && chain[k].key !in markers
  }

  function NextTo(f: Flight): int
  {
    Min(SafeHead(f.pass), f.from + f.pass.opts.chunkSize)
  }

  /** On to the next chunk, or to the end of the pass. */
  function Proceed(s: Machine, id: nat, f: Flight, chain: seq<Log>): Machine
  {
    if f.from < SafeHead(f.pass) && f.chunks > 0
    then s.(flights := s.flights[id := f.(phase := Fetching(NextTo(f)))])
    else Trimmed(s, f.pass.opts, chain).(flights := s.flights - {id})
  }

  /** A pass as it starts, with the cursor it finds. */
  function NewFlight(s: Machine, pass: Pass): Flight
  {
    Flight(pass, CursorOr(s.cursor, pass.opts.startBlock), pass.opts.maxChunks, Fetching(0), false, false, 0,
           s.cursorSince)
  }

  function Entered(s: Machine, id: nat, pass: Pass, chain: seq<Log>): Machine
  {
    var f := NewFlight(s, pass);
    if s.cursor.Some? && s.cursor.value > 0
    then s.(flights := s.flights[id := f.(phase := Looking(s.cursor.value, s.hash, s.hashOf))])
    else Proceed(s, id, f, chain)
  }

  predicate Differ(hash: nat, answer: nat)
  {
    hash != 0 && answer != 0 && hash != answer
  }

  /** Nothing has been applied since the wipe, by any pass. */
  function Cleared(flights: map<nat, Flight>): map<nat, Flight>
  {
    map q | q in flights :: flights[q].(raced := false, unseen := false)
  }

  function Wiped(s: Machine, cursor: nat): Machine
  {
    s.(tables := Reset(s.tables), alerts := DropFrom(s.alerts, cursor), markers := map[], flights := Cleared(s.flights),
       applied := [], forgotten := {}, wipes := s.wipes + 1, seed := Reset(s.tables))
  }

  /** The pass that wipes starts over. */
  function StartOver(f: Flight, wipes: nat): Flight
  {
    f.(from := f.pass.opts.startBlock - 1, raced := false, unseen := false, since := wipes)
  }

  /** The node's hash for the cursor block is in, zero if it had none. */
  function Looked(s: Machine, id: nat, f: Flight, chain: seq<Log>): Machine
    requires f.phase.Looking?
  {
    if Differ(f.phase.hash, f.pass.provider.hashAt(f.phase.cursor))
    then Proceed(Wiped(s, f.phase.cursor), id, StartOver(f, s.wipes + 1), chain)
    else Proceed(s, id, f.(from := f.phase.cursor), chain)
  }

  /** The chunk's hash is in, and the chunk is done. */
  function HashWritten(s: Machine, f: Flight): Machine
    requires f.phase.Hashing?
  {
    s.(hash := f.pass.provider.hashAt(f.phase.to), hashOf := Some(f.phase.to))
  }

  function NextChunk(f: Flight): Flight
    requires f.phase.Hashing? && f.chunks > 0
  {
    f.(from := f.phase.to, chunks := f.chunks - 1)
  }

  /** A marked log is passed by, an unmarked one is taken in hand. */
  function Tested(s: Machine, id: nat, f: Flight, chain: seq<Log>): Machine
    requires f.phase.Scanning? && f.phase.next < |chain|
  {
    var p := f.phase;
    s.(flights := s.flights[id :=
         if chain[p.next].key in s.markers then f.(phase := Scanning(p.to, p.next + 1, p.hi))
         else f.(phase := Checked(p.to, p.next, p.hi), raced := false, unseen := p.next in s.applied)])
  }

  /** Other passes that hold log `k` no longer hold it first. */
  function Overtaken(flights: map<nat, Flight>, k: nat): map<nat, Flight>
  {
    map q | q in flights ::
      if flights[q].phase.Checked? && flights[q].phase.next == k then flights[q].(raced := true) else flights[q]
  }

  function Taken(s: Machine, id: nat, f: Flight, chain: seq<Log>): Machine
    requires f.phase.Checked? && f.phase.next < |chain|
  {
    var p := f.phase;
    s.(tables := ApplyLog(s.tables, chain[p.next]),
       alerts := RaiseAlert(s.alerts, chain[p.next]),
       applied := s.applied + [p.next],
       flights := Overtaken(s.flights, p.next)[id := f.(phase := Applied(p.to, p.next, p.hi), epoch := s.wipes)])
  }

  function Noted(s: Machine, id: nat, f: Flight, chain: seq<Log>): Machine
    requires f.phase.Applied? && f.phase.next < |chain|
  {
    var p := f.phase;
    var log := chain[p.next];
    s.(markers := if log.key in s.markers then s.markers else s.markers[log.key := log.block],
       flights := s.flights[id := f.(phase := Scanning(p.to, p.next + 1, p.hi))])
  }

  function InHand(flights: map<nat, Flight>): set<nat>
  {
    set q | q in flights && flights[q].phase.Applied? :: flights[q].phase.next
  }

  /** One step; a step that is not enabled changes nothing. */
  function Move(s: Machine, step: Step, chain: seq<Log>): Machine
  {
    if step.Die? then s.(flights := map[], forgotten := s.forgotten + InHand(s.flights))
    else if step.Enter? then (if step.id in s.flights then s else Entered(s, step.id, step.pass, chain))
    else if step.id !in s.flights then s
    else MoveFlight(s, step, s.flights[step.id], chain)
  }

  function MoveFlight(s: Machine, step: Step, f: Flight, chain: seq<Log>): Machine
    requires !step.Die? && !step.Enter?
  {
    match step
    case Look(id) => if f.phase.Looking? then Looked(s, id, f, chain) else s
    case Fetch(id) =>
      if !f.phase.Fetching? then s
      else
        var to := f.phase.to;
        s.(flights := s.flights[id := f.(phase := Scanning(to, Upto(chain, f.from), Upto(chain, to)))])
    case Check(id) => if f.phase.Scanning? && f.phase.next < f.phase.hi <= |chain| then Tested(s, id, f, chain) else s
    case Apply(id) => if f.phase.Checked? && f.phase.next < |chain| then Taken(s, id, f, chain) else s
    case Mark(id) => if f.phase.Applied? && f.phase.next < |chain| then Noted(s, id, f, chain) else s
    case WriteCursor(id) =>
      if f.phase.Scanning? && f.phase.next >= f.phase.hi
      then s.(cursor := Some(f.phase.to), cursorSince := f.since,
              flights := s.flights[id := f.(phase := Hashing(f.phase.to))]) else s
    case WriteHash(id) =>
      if f.phase.Hashing? && f.chunks > 0 then Proceed(HashWritten(s, f), id, NextChunk(f), chain) else s
    case Fail(id) => if f.phase.Fetching? || f.phase.Checked? then s.(flights := s.flights - {id}) else s
  }

  /** The machine after these steps. */
  function After(s: Machine, steps: seq<Step>, chain: seq<Log>): Machine
  {
    if steps == [] then s else Move(After(s, steps[..|steps| - 1], chain), steps[|steps| - 1], chain)
  }

  lemma AfterTake(s: Machine, steps: seq<Step>, n: nat, chain: seq<Log>)
    requires n < |steps|
    ensures After(s, steps[..n + 1], chain) == Move(After(s, steps[..n], chain), steps[n], chain)
  {
    assert steps[..n + 1][..n] == steps[..n];
  }

  /** Passes keep their node and settings. */
  lemma PassesKept(s: Machine, step: Step, chain: seq<Log>)
    ensures forall q :: q in Move(s, step, chain).flights ==>
              if q in s.flights then Move(s, step, chain).flights[q].pass == s.flights[q].pass
              else step.Enter? && Move(s, step, chain).flights[q].pass == step.pass
  {
  }

  /** Every pass is started with the process's settings and a node that is right
      about the safe part of the chain. */
  ghost predicate StepOk(step: Step, chain: seq<Log>, startBlock: nat)
  {
    step.Enter? ==> PassOk(step.pass, chain, startBlock)
  }

  ghost predicate StepsOk(steps: seq<Step>, chain: seq<Log>, startBlock: nat)
  {
    forall i :: 0 <= i < |steps| ==> StepOk(steps[i], chain, startBlock)
  }

  // ---- each log once since the last wipe ----

  ghost predicate Once(s: Machine)
  {
    forall i, j :: 0 <= i < j < |s.applied| ==> s.applied[i] != s.applied[j]
  }

  /** This step applies a log that another pass has applied since it was checked, or
      that had been applied when no marker was found for it. */
  predicate Late(s: Machine, step: Step)
  {
    && step.Apply? && step.id in s.flights && s.flights[step.id].phase.Checked?
    && (s.flights[step.id].raced || s.flights[step.id].unseen)
  }

  /** A log in hand has been applied exactly when history says so. */
  ghost predicate Knows(s: Machine, chain: seq<Log>)
  {
    forall q :: q in s.flights && s.flights[q].phase.Checked? ==>
      && s.flights[q].phase.next < |chain|
      && (s.flights[q].phase.next in s.applied <==> s.flights[q].raced || s.flights[q].unseen)
  }

  lemma ProceedKnows(s: Machine, id: nat, f: Flight, chain: seq<Log>)
    requires Knows(s.(flights := s.flights - {id}), chain)
    ensures Knows(Proceed(s, id, f, chain), chain)
  {
    var s' := Proceed(s, id, f, chain);
    forall q | q in s'.flights && s'.flights[q].phase.Checked?
      ensures s'.flights[q].phase.next < |chain|
      ensures s'.flights[q].phase.next in s'.applied <==> s'.flights[q].raced || s'.flights[q].unseen
    {
      assert q in s.flights - {id};
    }
  }

  lemma LookKnows(s: Machine, id: nat, f: Flight, chain: seq<Log>)
    requires Knows(s, chain) && f.phase.Looking?
    ensures Knows(Looked(s, id, f, chain), chain)
  {
    ProceedKnows(s, id, f.(from := f.phase.cursor), chain);
    ProceedKnows(Wiped(s, f.phase.cursor), id, StartOver(f, s.wipes + 1), chain);
  }

  lemma TakenKnows(s: Machine, id: nat, f: Flight, chain: seq<Log>)
    requires Knows(s, chain) && f.phase.Checked? && f.phase.next < |chain|
    ensures Knows(Taken(s, id, f, chain), chain)
  {
    var s' := Taken(s, id, f, chain);
    forall q | q in s'.flights && s'.flights[q].phase.Checked?
      ensures s'.flights[q].phase.next < |chain|
      ensures s'.flights[q].phase.next in s'.applied <==> s'.flights[q].raced || s'.flights[q].unseen
    {
      assert q != id && q in s.flights && s.flights[q].phase == s'.flights[q].phase;
    }
  }

  lemma MoveKnows(s: Machine, step: Step, chain: seq<Log>)
    requires Knows(s, chain)
    ensures Knows(Move(s, step, chain), chain)
  {
    if step.Enter? && step.id !in s.flights {
      ProceedKnows(s, step.id, NewFlight(s, step.pass), chain);
    } else if !step.Die? && !step.Enter? && step.id in s.flights {
      FlightKnows(s, step, s.flights[step.id], chain);
    }
  }

  lemma FlightKnows(s: Machine, step: Step, f: Flight, chain: seq<Log>)
    requires Knows(s, chain) && !step.Die? && !step.Enter? && step.id in s.flights && f == s.flights[step.id]
    ensures Knows(MoveFlight(s, step, f, chain), chain)
  {
    match step {
      case Look(id) =>
        if f.phase.Looking? {
          LookKnows(s, id, f, chain);
        }
      case Apply(id) =>
        if f.phase.Checked? {
          TakenKnows(s, id, f, chain);
        }
      case WriteHash(id) =>
        if f.phase.Hashing? && f.chunks > 0 {
          ProceedKnows(HashWritten(s, f), id, NextChunk(f), chain);
        }
      case _ =>
    }
  }

  /** What a step does to the list of applied logs. */
  lemma AppliedMoves(s: Machine, step: Step, chain: seq<Log>)
    ensures var s' := Move(s, step, chain);
      if step.Apply? && step.id in s.flights && s.flights[step.id].phase.Checked?
         && s.flights[step.id].phase.next < |chain|
      then s'.applied == s.applied + [s.flights[step.id].phase.next] && s'.wipes == s.wipes
      else s'.applied == (if s'.wipes == s.wipes then s.applied else [])
    ensures s.wipes <= Move(s, step, chain).wipes
  {
  }

  /** A step keeps every log applied at most once exactly when it is not late. */
  lemma OnceStep(s: Machine, step: Step, chain: seq<Log>)
    requires Knows(s, chain) && Once(s)
    ensures Once(Move(s, step, chain)) <==> !Late(s, step)
  {
    AppliedMoves(s, step, chain);
    if step.Apply? && step.id in s.flights && s.flights[step.id].phase.Checked? {
      OneMoreOnce(s.applied, s.flights[step.id].phase.next, Move(s, step, chain).applied);
    }
  }

  lemma OneMoreOnce(applied: seq<nat>, k: nat, applied': seq<nat>)
    requires applied' == applied + [k] && forall i, j :: 0 <= i < j < |applied| ==> applied[i] != applied[j]
    ensures (forall i, j :: 0 <= i < j < |applied'| ==> applied'[i] != applied'[j]) <==> k !in applied
  {
    if k in applied {
      var i :| 0 <= i < |applied| && applied[i] == k;
      assert applied'[i] == applied'[|applied|];
    }
  }

  lemma {:induction false} RunKnows(s: Machine, steps: seq<Step>, chain: seq<Log>)
    requires Knows(s, chain)
    ensures Knows(After(s, steps, chain), chain)
  {
    if steps != [] {
      RunKnows(s, steps[..|steps| - 1], chain);
      MoveKnows(After(s, steps[..|steps| - 1], chain), steps[|steps| - 1], chain);
    }
  }

  ghost predicate OnceAt(steps: seq<Step>, n: nat, chain: seq<Log>)
    requires n <= |steps|
  {
    Once(After(FRESH, steps[..n], chain))
  }

  predicate LateAt(s: Machine, steps: seq<Step>, n: nat, chain: seq<Log>)
    requires n < |steps|
  {
    Late(After(s, steps[..n], chain), steps[n])
  }

  lemma OnceNext(steps: seq<Step>, n: nat, chain: seq<Log>)
    requires n < |steps| && OnceAt(steps, n, chain)
    ensures OnceAt(steps, n + 1, chain) <==> !LateAt(FRESH, steps, n, chain)
  {
    AfterTake(FRESH, steps, n, chain);
    RunKnows(FRESH, steps[..n], chain);
    OnceStep(After(FRESH, steps[..n], chain), steps[n], chain);
  }

  lemma {:induction false} OnceUpTo(steps: seq<Step>, n: nat, chain: seq<Log>)
    requires n <= |steps| && forall i: nat :: i < n ==> !LateAt(FRESH, steps, i, chain)
    ensures OnceAt(steps, n, chain)
  {
    if n > 0 {
      OnceUpTo(steps, n - 1, chain);
      OnceNext(steps, n - 1, chain);
    }
  }

  /** Over all interleavings: every log is applied at most once since the last wipe,
      after every step, if and only if no step is late. */
  lemma OnceThroughoutIff(steps: seq<Step>, chain: seq<Log>)
    ensures (forall n: nat :: n <= |steps| ==> OnceAt(steps, n, chain))
       <==> (forall n: nat :: n < |steps| ==> !LateAt(FRESH, steps, n, chain))
  {
    if forall n: nat :: n < |steps| ==> !LateAt(FRESH, steps, n, chain) {
      forall n: nat | n <= |steps|
        ensures OnceAt(steps, n, chain)
      {
        OnceUpTo(steps, n, chain);
      }
    }
    if forall n: nat :: n <= |steps| ==> OnceAt(steps, n, chain) {
      forall n: nat | n < |steps|
        ensures !LateAt(FRESH, steps, n, chain)
      {
        assert OnceAt(steps, n, chain) && OnceAt(steps, n + 1, chain);
        OnceNext(steps, n, chain);
      }
    }
  }

  // ---- how a log can have been applied and carry no marker ----

  /** Every applied log carries its marker, or is in the hands of the pass that
      applied it, or its marker was dropped by retention or died with the process. */
  ghost predicate Accounted(s: Machine, chain: seq<Log>)
  {
    forall k :: k in s.applied ==>
      k < |chain| && (chain[k].key in s.markers || k in s.forgotten || k in HeldSince(s.flights, s.wipes))
  }

  /** Logs applied since that many wipes and not yet marked. */
  function HeldSince(flights: map<nat, Flight>, wipes: nat): set<nat>
  {
    set q | q in flights && flights[q].phase.Applied? && flights[q].epoch == wipes :: flights[q].phase.next
  }

  /** Passes that have applied a log and not marked it stay so when another moves. */
  lemma HandsKept(flights: map<nat, Flight>, id: nat, f: Flight, wipes: nat)
    requires id in flights ==> !flights[id].phase.Applied?
    ensures forall k :: k in HeldSince(flights, wipes) ==>
              k in HeldSince(flights[id := f], wipes) && k in HeldSince(flights - {id}, wipes)
  {
    forall k | k in HeldSince(flights, wipes)
      ensures k in HeldSince(flights[id := f], wipes) && k in HeldSince(flights - {id}, wipes)
    {
      var q :| q in flights && flights[q].phase.Applied? && flights[q].epoch == wipes && flights[q].phase.next == k;
      assert q in flights[id := f] && flights[id := f][q] == flights[q];
      assert q in flights - {id} && (flights - {id})[q] == flights[q];
    }
  }

  lemma ProceedAccounted(s: Machine, id: nat, f: Flight, chain: seq<Log>)
    requires Accounted(s, chain) && (id in s.flights ==> !s.flights[id].phase.Applied?)
    ensures Accounted(Proceed(s, id, f, chain), chain)
  {
    HandsKept(s.flights, id, f.(phase := Fetching(NextTo(f))), s.wipes);
  }

  lemma LookAccounted(s: Machine, id: nat, f: Flight, chain: seq<Log>)
    requires Accounted(s, chain) && id in s.flights && f == s.flights[id] && f.phase.Looking?
    ensures Accounted(Looked(s, id, f, chain), chain)
  {
    if Differ(f.phase.hash, f.pass.provider.hashAt(f.phase.cursor)) {
      ProceedAccounted(Wiped(s, f.phase.cursor), id, StartOver(f, s.wipes + 1), chain);
    } else {
      ProceedAccounted(s, id, f.(from := f.phase.cursor), chain);
    }
  }

  lemma TakenAccounted(s: Machine, id: nat, f: Flight, chain: seq<Log>)
    requires Accounted(s, chain) && id in s.flights && f == s.flights[id]
    requires f.phase.Checked? && f.phase.next < |chain|
    ensures Accounted(Taken(s, id, f, chain), chain)
  {
    var s' := Taken(s, id, f, chain);
    forall k | k in s'.applied
      ensures k < |chain| && (chain[k].key in s'.markers || k in s'.forgotten || k in HeldSince(s'.flights, s'.wipes))
    {
      if k == f.phase.next {
        assert s'.flights[id].phase.next == k;
      } else if k in HeldSince(s.flights, s.wipes) {
        var q :| q in s.flights && s.flights[q].phase.Applied? && s.flights[q].epoch == s.wipes
                 && s.flights[q].phase.next == k;
        assert q in s'.flights && s'.flights[q] == s.flights[q];
      }
    }
  }

  lemma NotedAccounted(s: Machine, id: nat, f: Flight, chain: seq<Log>)
    requires Accounted(s, chain) && id in s.flights && f == s.flights[id]
    requires f.phase.Applied? && f.phase.next < |chain|
    ensures Accounted(Noted(s, id, f, chain), chain)
  {
    var s' := Noted(s, id, f, chain);
    forall k | k in s'.applied
      ensures k < |chain| && (chain[k].key in s'.markers || k in s'.forgotten || k in HeldSince(s'.flights, s'.wipes))
    {
      if k in HeldSince(s.flights, s.wipes) && k != f.phase.next {
        var q :| q in s.flights && s.flights[q].phase.Applied? && s.flights[q].epoch == s.wipes
                 && s.flights[q].phase.next == k;
        assert q in s'.flights && s'.flights[q] == s.flights[q];
      }
    }
  }

  lemma FlightAccounted(s: Machine, step: Step, f: Flight, chain: seq<Log>)
    requires Accounted(s, chain) && !step.Die? && !step.Enter? && step.id in s.flights && f == s.flights[step.id]
    ensures Accounted(MoveFlight(s, step, f, chain), chain)
  {
    if !f.phase.Applied? {
      HandsKept(s.flights, step.id, if step.id in MoveFlight(s, step, f, chain).flights
                                    then MoveFlight(s, step, f, chain).flights[step.id] else f, s.wipes);
    }
    match step {
      case Look(id) =>
        if f.phase.Looking? {
          LookAccounted(s, id, f, chain);
        }
      case Apply(id) =>
        if f.phase.Checked? && f.phase.next < |chain| {
          TakenAccounted(s, id, f, chain);
        }
      case Mark(id) =>
        if f.phase.Applied? && f.phase.next < |chain| {
          NotedAccounted(s, id, f, chain);
        }
      case WriteHash(id) =>
        if f.phase.Hashing? && f.chunks > 0 {
          ProceedAccounted(HashWritten(s, f), id, NextChunk(f), chain);
        }
      case _ =>
    }
  }

  lemma MoveAccounted(s: Machine, step: Step, chain: seq<Log>)
    requires Accounted(s, chain)
    ensures Accounted(Move(s, step, chain), chain)
  {
    if step.Enter? && step.id !in s.flights {
      var f := NewFlight(s, step.pass);
      ProceedAccounted(s, step.id, f, chain);
      if s.cursor.Some? && s.cursor.value > 0 {
        HandsKept(s.flights, step.id, f.(phase := Looking(s.cursor.value, s.hash, s.hashOf)), s.wipes);
      }
    } else if !step.Die? && !step.Enter? && step.id in s.flights {
      FlightAccounted(s, step, s.flights[step.id], chain);
    }
  }

  lemma {:induction false} RunAccounted(s: Machine, steps: seq<Step>, chain: seq<Log>)
    requires Accounted(s, chain)
    ensures Accounted(After(s, steps, chain), chain)
  {
    if steps != [] {
      RunAccounted(s, steps[..|steps| - 1], chain);
      MoveAccounted(After(s, steps[..|steps| - 1], chain), steps[|steps| - 1], chain);
    }
  }

  /** A pass takes an applied log in hand only while another stands between applying
      and marking it, or when its marker was dropped by retention or died unwritten. */
  lemma UnseenWhy(steps: seq<Step>, id: nat, chain: seq<Log>)
    requires var s := After(FRESH, steps, chain); id in s.flights && s.flights[id].phase.Scanning?
    ensures
      var s := After(FRESH, steps, chain);
      var s' := Move(s, Check(id), chain);
      s'.flights[id].phase.Checked? && s'.flights[id].unseen ==>
        var k := s.flights[id].phase.next;
        (exists q :: q in s.flights && q != id && s.flights[q].phase.Applied? && s.flights[q].epoch == s.wipes
                     && s.flights[q].phase.next == k)
        || k in s.forgotten
  {
    RunAccounted(FRESH, steps, chain);
  }
}
