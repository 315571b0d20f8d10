/** Passes that do not overlap. A run of the interleaved machine in which each pass
    starts only when none is in flight, and no process dies between applying a log
    and marking it, is a schedule of passes in the sense of `IndexTrail`: what is
    proved there about schedules is proved of such runs. */
module OverlapSerial {

  import opened Parties
  import opened Alerts
  import opened IndexDb
  import opened ChainLogs
  import opened IndexTrail
  import opened IndexState
  import opened Overlap

  function StoreOf(s: Machine): Store
  {
    Store(s.tables, s.markers, s.alerts, s.cursor, s.hash)
  }

  /** The one pass in flight: the trail it found, the trail it scans from, how far it
      has come with whole chunks, and how many steps of a schedule's pass that was. */
  datatype Ride = Ride(id: nat, x: Trail, y: Trail, d: Reach, spent: nat)

  function More(spent: nat, left: Option<nat>): Option<nat>
  {
    if left.Some? then Some(spent + left.value) else None
  }

  function Budgeted(p: Pass, budget: Option<nat>): Pass
  {
    p.(budget := budget)
  }

  /** With so many steps left, the scan from `y` comes to what the scan from `d` comes to. */
  predicate Comes(r: Ride, f: Flight, chain: seq<Log>, left: Option<nat>)
    requires r.y.pieces != []
  {
    ScanOf(r.y, Budgeted(f.pass, More(r.spent, left)), chain)
    == Continue(chain, r.d, SafeHead(f.pass), f.pass.opts.chunkSize, f.chunks, left)
  }

  ghost predicate OnTheWay(r: Ride, f: Flight, chain: seq<Log>)
    requires r.y.pieces != []
  {
    forall left: Option<nat> :: Comes(r, f, chain, left)
  }

  /** The store when the scan has come as far as `r`. */
  ghost predicate StoreAt(m: Store, y: Trail, r: Reach, p: Pass, chain: seq<Log>, held: nat -> Held)
  {
    && y.scanned <= r.block
    && HeldAt(m.tables, m.markers, m.alerts, chain, LastHi(y), r.n, r.block, held)
    && m.cursor == (if r.block == y.scanned then y.cursor else Some(r.block))
    && m.hash == (if r.hashed.Some? then p.provider.hashAt(r.hashed.value) else y.hash)
  }

  function LastHi(y: Trail): nat
  {
    if y.pieces == [] then 0 else LastPiece(y).hi
  }

  /** Part of a chunk: the logs before `next` are applied. */
  function PartWay(d: Reach, next: nat): Reach
  {
    d.(n := MaxPos(d.n, next))
  }

  /** Where the pass is, between two of its waits. */
  ghost predicate Riding(m: Store, r: Ride, f: Flight, chain: seq<Log>, held: nat -> Held)
  {
    var lo := Upto(chain, r.d.block);
    && r.d.block == f.from && !r.d.died && r.d.block < SafeHead(f.pass) && f.chunks > 0 && f.pass.opts.chunkSize >= 1
    && match f.phase
       case Looking(_, _, _) => false
       case Fetching(to) => to == NextTo(f) && StoreAt(m, r.y, r.d, f.pass, chain, held)
       case Scanning(to, next, hi) =>
         && to == NextTo(f) && hi == Upto(chain, to) && lo <= next <= hi
         && StoreAt(m, r.y, PartWay(r.d, next), f.pass, chain, held)
       case Checked(to, next, hi) =>
         && to == NextTo(f) && hi == Upto(chain, to) && lo <= next < hi && chain[next].key !in m.markers
         && StoreAt(m, r.y, PartWay(r.d, next), f.pass, chain, held)
       case Applied(to, next, hi) =>
         && to == NextTo(f) && hi == Upto(chain, to) && lo <= next < hi && chain[next].key !in m.markers
         && StoreAt(m.(markers := m.markers[chain[next].key := chain[next].block]), r.y, PartWay(r.d, next + 1), f.pass,
                    chain, held)
       case Hashing(to) =>
         && to == NextTo(f)
         && StoreAt(m, r.y, PartWay(r.d, Upto(chain, to)).(block := to), f.pass, chain, held)
  }

  // ---- the steps of a chunk ----

  lemma RideFetch(m: Store, r: Ride, f: Flight, chain: seq<Log>, held: nat -> Held)
    requires Riding(m, r, f, chain, held) && f.phase.Fetching?
    ensures Riding(m, r, f.(phase := Scanning(f.phase.to, Upto(chain, f.from), Upto(chain, f.phase.to))), chain, held)
  {
    UptoMonotone(chain, f.from, f.phase.to);
    assert PartWay(r.d, Upto(chain, f.from)) == r.d;
  }

  /** A marked log is one the scan has applied, an unmarked one the next to apply. */
  lemma RideCheck(m: Store, r: Ride, f: Flight, chain: seq<Log>, held: nat -> Held)
    requires Riding(m, r, f, chain, held) && f.phase.Scanning? && f.phase.next < f.phase.hi
    ensures chain[f.phase.next].key in m.markers ==>
              Riding(m, r, f.(phase := Scanning(f.phase.to, f.phase.next + 1, f.phase.hi)), chain, held)
    ensures chain[f.phase.next].key !in m.markers ==>
              MaxPos(r.d.n, f.phase.next) == f.phase.next
  {
    var next := f.phase.next;
    var n := MaxPos(r.d.n, next);
    assert Marked(m.markers, chain, Upto(chain, r.d.block), n);
    if chain[next].key in m.markers {
      assert next < n;
      assert PartWay(r.d, next + 1) == PartWay(r.d, next);
    }
  }

  lemma RideApply(m: Store, m': Store, r: Ride, f: Flight, f': Flight, chain: seq<Log>, held: nat -> Held)
    requires Riding(m, r, f, chain, held) && f.phase.Checked?
    requires m' == m.(tables := ApplyLog(m.tables, chain[f.phase.next]),
                      alerts := RaiseAlert(m.alerts, chain[f.phase.next]))
    requires SameFlight(f, f', Applied(f.phase.to, f.phase.next, f.phase.hi))
    ensures Riding(m', r, f', chain, held)
  {
    CheckedIsNext(m, r, f, chain, held);
    HeldOneMore(m.tables, m.markers, m.alerts, chain, LastHi(r.y), f.phase.next, r.d.block, held);
  }

  /** An unmarked log is the next one to apply. */
  lemma CheckedIsNext(m: Store, r: Ride, f: Flight, chain: seq<Log>, held: nat -> Held)
    requires Riding(m, r, f, chain, held) && f.phase.Checked?
    ensures PartWay(r.d, f.phase.next).n == f.phase.next && PartWay(r.d, f.phase.next + 1).n == f.phase.next + 1
  {
    assert Marked(m.markers, chain, Upto(chain, r.d.block), MaxPos(r.d.n, f.phase.next));
  }

  lemma RideMark(m: Store, m': Store, r: Ride, f: Flight, f': Flight, chain: seq<Log>, held: nat -> Held)
    requires Riding(m, r, f, chain, held) && f.phase.Applied?
    requires m' == m.(markers := m.markers[chain[f.phase.next].key := chain[f.phase.next].block])
    requires SameFlight(f, f', Scanning(f.phase.to, f.phase.next + 1, f.phase.hi))
    ensures Riding(m', r, f', chain, held)
  {
  }

  /** The same pass, elsewhere in its chunk. */
  ghost predicate SameFlight(f: Flight, f': Flight, phase: Phase)
  {
    f'.pass == f.pass && f'.from == f.from && f'.chunks == f.chunks && f'.phase == phase
  }

  lemma RideCursor(m: Store, r: Ride, f: Flight, chain: seq<Log>, held: nat -> Held)
    requires Riding(m, r, f, chain, held) && f.phase.Scanning? && f.phase.next >= f.phase.hi
    ensures Riding(m.(cursor := Some(f.phase.to)), r, f.(phase := Hashing(f.phase.to)), chain, held)
  {
    var n := MaxPos(r.d.n, f.phase.next);
    HeldAdvance(m.tables, m.markers, m.alerts, chain, LastHi(r.y), n, r.d.block, f.phase.to, held);
  }

  // ---- the end of a chunk ----

  function LogsOf(r: Ride, to: int, chain: seq<Log>): int
  {
    Upto(chain, to) - Upto(chain, r.d.block)
  }

  /** The ride one chunk on. */
  function Onward(r: Ride, to: int, chain: seq<Log>): Ride
    requires LogsOf(r, to, chain) >= 0
  {
    r.(d := Reach(to, Some(to), MaxPos(r.d.n, Upto(chain, to)), false), spent := r.spent + LogsOf(r, to, chain) + 2)
  }

  lemma ChunkOnTheWay(r: Ride, f: Flight, f': Flight, chain: seq<Log>)
    requires r.y.pieces != [] && OnTheWay(r, f, chain) && !r.d.died && r.d.block == f.from && f.from < SafeHead(f.pass)
    requires f.phase.Hashing? && f.phase.to == NextTo(f) && f.chunks > 0 && LogsOf(r, f.phase.to, chain) >= 0
    requires f'.pass == f.pass && f'.chunks == f.chunks - 1
    ensures OnTheWay(Onward(r, f.phase.to, chain), f', chain)
  {
    var to, logs := f.phase.to, LogsOf(r, f.phase.to, chain);
    var r' := Onward(r, to, chain);
    forall left: Option<nat>
      ensures Comes(r', f', chain, left)
    {
      var budget := More(logs + 2, left);
      assert More(r'.spent, left) == More(r.spent, budget);
      assert Comes(r, f, chain, budget);
      ChunkContinues(r, to, logs, chain, budget, left);
      ContinueStep(chain, r.d, r'.d, SafeHead(f.pass), f.pass.opts.chunkSize, f.chunks - 1, budget, left);
    }
  }

  /** With more steps than the chunk takes, the chunk is done and the rest is left. */
  lemma ChunkContinues(r: Ride, to: int, logs: nat, chain: seq<Log>, budget: Option<nat>, left: Option<nat>)
    requires logs == LogsOf(r, to, chain) && budget == More(logs + 2, left)
    ensures Hashed(ScanChunk(chain, r.d.block, to, r.d.n, budget), r.d.hashed) == Onward(r, to, chain).d
    ensures left == Spend(budget, logs + 2)
  {
  }

  // ---- a pass that is cut short ----

  /** Where a pass with so many steps left of its chunk stops. */
  function StopsAt(r: Ride, f: Flight, chain: seq<Log>, left: nat): Reach
  {
    if left <= LogsOf(r, NextTo(f), chain) then PartWay(r.d, Upto(chain, r.d.block) + left).(died := true)
    else PartWay(r.d, Upto(chain, NextTo(f))).(block := NextTo(f), died := true)
  }

  lemma StopsPartWay(r: Ride, f: Flight, chain: seq<Log>, left: nat)
    requires r.y.pieces != [] && OnTheWay(r, f, chain) && !r.d.died && r.d.block == f.from
    requires f.from < SafeHead(f.pass) && f.chunks > 0 && left <= LogsOf(r, NextTo(f), chain) + 1
    ensures ScanOf(r.y, Budgeted(f.pass, Some(r.spent + left)), chain) == StopsAt(r, f, chain, left)
  {
    assert Comes(r, f, chain, Some(left));
  }

  /** How many steps of its chunk the pass has taken. */
  function Taking(r: Ride, f: Flight, chain: seq<Log>): int
  {
    match f.phase
    case Scanning(to, next, hi) => next - Upto(chain, r.d.block)
    case Checked(to, next, hi) => next - Upto(chain, r.d.block)
    case Hashing(to) => LogsOf(r, to, chain) + 1
    case _ => 0
  }

  /** The store of a schedule's pass that died where the scan has come to. */
  lemma DiedThere(m: Store, x: Trail, y: Trail, p: Pass, z: Reach, chain: seq<Log>, startBlock: nat, seed: Tables,
                  aseed: Table)
    requires CanPoll(x, p) && y == Begin(x, p, chain) && TrailOk(y, chain, startBlock)
    requires z == ScanOf(y, p, chain) && z.died && StoreAt(m, y, z, p, chain, HeldBy(y, chain, seed, aseed))
    ensures Keeps(m, Poll(x, p, chain), chain, seed, aseed)
  {
    KeepsScanned(m, chain, y, p, z, startBlock, seed, aseed);
  }

  lemma StoppedStore(m: Store, r: Ride, f: Flight, chain: seq<Log>, held: nat -> Held)
    requires ChainOk(chain) && Riding(m, r, f, chain, held) && !f.phase.Applied?
    ensures 0 <= Taking(r, f, chain) <= LogsOf(r, NextTo(f), chain) + 1
    ensures StoreAt(m, r.y, StopsAt(r, f, chain, Taking(r, f, chain)), f.pass, chain, held)
  {
    UptoMonotone(chain, f.from, NextTo(f));
    if f.phase.Fetching? {
      assert PartWay(r.d, Upto(chain, f.from)) == r.d;
    }
  }

  /** A pass that fails or dies where it waits is one whose steps ran out there. */
  lemma CutShort(m: Store, r: Ride, f: Flight, chain: seq<Log>, startBlock: nat, seed: Tables, aseed: Table)
    requires CanPoll(r.x, f.pass) && r.y == Begin(r.x, f.pass, chain) && TrailOk(r.y, chain, startBlock)
    requires Riding(m, r, f, chain, HeldBy(r.y, chain, seed, aseed)) && OnTheWay(r, f, chain) && !f.phase.Applied?
    ensures Taking(r, f, chain) >= 0
    ensures Keeps(m, Poll(r.x, Budgeted(f.pass, Some(r.spent + Taking(r, f, chain))), chain), chain, seed, aseed)
  {
    StoppedStore(m, r, f, chain, HeldBy(r.y, chain, seed, aseed));
    StopsPartWay(r, f, chain, Taking(r, f, chain));
    SameBegin(r.x, f.pass, Some(r.spent + Taking(r, f, chain)), chain);
    DiedThere(m, r.x, r.y, Budgeted(f.pass, Some(r.spent + Taking(r, f, chain))),
              StopsAt(r, f, chain, Taking(r, f, chain)), chain, startBlock, seed, aseed);
  }

  /** How long a pass lives has no part in how it begins. */
  lemma SameBegin(x: Trail, p: Pass, budget: Option<nat>, chain: seq<Log>)
    requires CanPoll(x, p)
    ensures CanPoll(x, Budgeted(p, budget)) && Begin(x, Budgeted(p, budget), chain) == Begin(x, p, chain)
  {
  }

  // ---- beginning and end of a pass ----

  const NO_ALERTS := Table([], 0)

  ghost function HeldFresh(y: Trail, chain: seq<Log>): nat -> Held
    requires y.pieces != []
  {
    HeldBy(y, chain, NO_TABLES, NO_ALERTS)
  }

  ghost predicate Fits(m: Store, x: Trail, chain: seq<Log>)
  {
    Keeps(m, x, chain, NO_TABLES, NO_ALERTS)
  }

  /** The ride as a scan begins. */
  function SetOut(id: nat, x: Trail, y: Trail): Ride
  {
    Ride(id, x, y, Reach(y.scanned, None, LastHi(y), false), 0)
  }

  lemma SetsOut(m: Store, id: nat, x: Trail, f: Flight, chain: seq<Log>)
    requires CanPoll(x, f.pass) && Fits(m, Begin(x, f.pass, chain), chain)
    requires f.from == Begin(x, f.pass, chain).scanned && f.chunks == f.pass.opts.maxChunks
    ensures
      var y := Begin(x, f.pass, chain);
      OnTheWay(SetOut(id, x, y), f, chain) && StoreAt(m, y, SetOut(id, x, y).d, f.pass, chain, HeldFresh(y, chain))
  {
    var y := Begin(x, f.pass, chain);
    var r := SetOut(id, x, y);
    BeginScan(m, chain, y, NO_TABLES, NO_ALERTS);
    forall left: Option<nat>
      ensures Comes(r, f, chain, left)
    {
      assert More(0, left) == left;
    }
  }

  /** Nothing is left to scan: the store after retention is that of a pass that lived. */
  lemma RunsOut(m: Store, m': Store, r: Ride, f: Flight, chain: seq<Log>, startBlock: nat)
    requires CanPoll(r.x, f.pass) && r.y == Begin(r.x, f.pass, chain) && TrailOk(r.x, chain, startBlock)
    requires PassOk(f.pass, chain, startBlock) && OnTheWay(r, f, chain) && !r.d.died && r.d.block == f.from
    requires StoreAt(m, r.y, r.d, f.pass, chain, HeldFresh(r.y, chain))
    requires f.from >= SafeHead(f.pass) || f.chunks == 0
    requires var opts := f.pass.opts;
      var lastBlock := if m.cursor.Some? then m.cursor.value else opts.startBlock;
      m' == m.(markers := RecentMarkers(m.markers, lastBlock, opts.markerBlocks),
               alerts := Prune(m.alerts, opts.alertsKeep, opts.deliveredUpTo))
    ensures Fits(m', Poll(r.x, Budgeted(f.pass, None), chain), chain)
  {
    var p := Budgeted(f.pass, None);
    assert Comes(r, f, chain, None);
    assert ScanOf(r.y, p, chain) == r.d;
    SameBegin(r.x, f.pass, None, chain);
    BeginKeepsTrail(r.x, p, chain, startBlock);
    ScanBounds(chain, r.y.scanned, SafeHead(p), p.opts.chunkSize, p.opts.maxChunks, LastPiece(r.y).hi, p.budget);
    KeepsScanned(m, chain, r.y, p, r.d, startBlock, NO_TABLES, NO_ALERTS);
    KeepsPruned(m, m', chain, Scanned(r.y, p, r.d), p.opts, NO_TABLES, NO_ALERTS);
  }

  // ---- the run ----

  ghost predicate Rides(m: Store, r: Ride, f: Flight, x: Trail, chain: seq<Log>)
  {
    && r.x == x && CanPoll(x, f.pass) && r.y == Begin(x, f.pass, chain)
    && Riding(m, r, f, chain, HeldFresh(r.y, chain)) && OnTheWay(r, f, chain)
  }

  /** The machine between passes, waiting to look, or with one pass on its way. */
  ghost predicate Tracks(s: Machine, x: Trail, id: nat, r: Ride, chain: seq<Log>, startBlock: nat)
  {
    && TrailOk(x, chain, startBlock) && x.pieces != []
    && if s.flights == map[] then Fits(StoreOf(s), x, chain)
       else
         && id in s.flights && s.flights == map[id := s.flights[id]]
         && PassOk(s.flights[id].pass, chain, startBlock)
         && if s.flights[id].phase.Looking? then Asks(s, s.flights[id], x, chain)
            else Rides(StoreOf(s), r, s.flights[id], x, chain)
  }

  ghost predicate Asks(s: Machine, f: Flight, x: Trail, chain: seq<Log>)
    requires f.phase.Looking?
  {
    && Fits(StoreOf(s), x, chain) && f.chunks == f.pass.opts.maxChunks
    && x.cursor == Some(f.phase.cursor) && x.hash == f.phase.hash && f.phase.cursor > 0
  }

  /** What a step has made of the schedule so far: the same passes, or one more. */
  datatype Track = Track(x: Trail, id: nat, r: Ride, done: Option<Pass>)

  ghost predicate Goes(s: Machine, t: Track, x: Trail, chain: seq<Log>, startBlock: nat)
  {
    && Tracks(s, t.x, t.id, t.r, chain, startBlock)
    && if t.done.None? then t.x == x else CanPoll(x, t.done.value) && t.x == Poll(x, t.done.value, chain)
  }

  ghost predicate MayPoll(f: Flight, p: Pass, chain: seq<Log>, startBlock: nat)
  {
    p == Budgeted(f.pass, p.budget) && PassOk(p, chain, startBlock)
  }

  lemma Proceeds(s: Machine, id: nat, f: Flight, x: Trail, r: Ride, chain: seq<Log>, startBlock: nat) returns (t: Track)
    requires TrailOk(x, chain, startBlock) && x.pieces != [] && PassOk(f.pass, chain, startBlock)
    requires s.flights - {id} == map[]
    requires r.x == x && CanPoll(x, f.pass) && r.y == Begin(x, f.pass, chain) && OnTheWay(r, f, chain)
    requires !r.d.died && r.d.block == f.from && StoreAt(StoreOf(s), r.y, r.d, f.pass, chain, HeldFresh(r.y, chain))
    ensures Goes(Proceed(s, id, f, chain), t, x, chain, startBlock)
    ensures t.done.Some? ==> MayPoll(f, t.done.value, chain, startBlock)
    ensures t.done.Some? <==> Proceed(s, id, f, chain).flights == map[]
  {
    var s' := Proceed(s, id, f, chain);
    if f.from < SafeHead(f.pass) && f.chunks > 0 {
      assert s'.flights == map[id := s'.flights[id]];
      var f' := s'.flights[id];
      forall left: Option<nat>
        ensures Comes(r, f', chain, left)
      {
        assert Comes(r, f, chain, left);
      }
      t := Track(x, id, r, None);
    } else {
      var p := Budgeted(f.pass, None);
      RunsOut(StoreOf(s), StoreOf(s'), r, f, chain, startBlock);
      SameBegin(x, f.pass, None, chain);
      PollKeepsTrail(x, p, chain, startBlock);
      t := Track(Poll(x, p, chain), id, r, Some(p));
    }
  }

  lemma EnterGoes(s: Machine, id: nat, pass: Pass, x: Trail, chain: seq<Log>, startBlock: nat) returns (t: Track)
    requires TrailOk(x, chain, startBlock) && x.pieces != [] && PassOk(pass, chain, startBlock)
    requires s.flights == map[] && Fits(StoreOf(s), x, chain)
    ensures Goes(Entered(s, id, pass, chain), t, x, chain, startBlock)
    ensures t.done.Some? ==> MayPoll(NewFlight(s, pass), t.done.value, chain, startBlock)
    ensures t.done.Some? <==> Entered(s, id, pass, chain).flights == map[]
  {
    var f := NewFlight(s, pass);
    if s.cursor.Some? && s.cursor.value > 0 {
      t := Track(x, id, SetOut(id, x, x), None);
    } else {
      KeepsResume(StoreOf(s), chain, x, startBlock, NO_TABLES, NO_ALERTS);
      SetsOut(StoreOf(s), id, x, f, chain);
      t := Proceeds(s, id, f, x, SetOut(id, x, Begin(x, pass, chain)), chain, startBlock);
    }
  }

  lemma WipeFits(s: Machine, f: Flight, x: Trail, chain: seq<Log>, startBlock: nat)
    requires TrailOk(x, chain, startBlock) && x.pieces != [] && PassOk(f.pass, chain, startBlock)
    requires f.phase.Looking? && Asks(s, f, x, chain)
    requires Differ(f.phase.hash, f.pass.provider.hashAt(f.phase.cursor))
    ensures Begin(x, f.pass, chain) == Rebuild(x, chain, startBlock)
    ensures Fits(StoreOf(Wiped(s, f.phase.cursor)), Begin(x, f.pass, chain), chain)
  {
    KeepsRebuild(StoreOf(s), StoreOf(Wiped(s, f.phase.cursor)), chain, x, startBlock, NO_TABLES, NO_ALERTS);
  }

  lemma WipeGoes(s: Machine, s': Machine, id: nat, f: Flight, x: Trail, chain: seq<Log>,
                 startBlock: nat) returns (t: Track)
    requires TrailOk(x, chain, startBlock) && x.pieces != [] && PassOk(f.pass, chain, startBlock)
    requires s.flights == map[id := f] && f.phase.Looking? && Asks(s, f, x, chain)
    requires Differ(f.phase.hash, f.pass.provider.hashAt(f.phase.cursor))
    requires s' == Proceed(Wiped(s, f.phase.cursor), id, StartOver(f, s.wipes + 1), chain)
    ensures Goes(s', t, x, chain, startBlock)
    ensures t.done.Some? ==> MayPoll(f, t.done.value, chain, startBlock)
    ensures t.done.Some? <==> s'.flights == map[]
  {
    var w := Wiped(s, f.phase.cursor);
    WipeFits(s, f, x, chain, startBlock);
    SetsOut(StoreOf(w), id, x, StartOver(f, s.wipes + 1), chain);
    t := Proceeds(w, id, StartOver(f, s.wipes + 1), x, SetOut(id, x, Begin(x, f.pass, chain)), chain, startBlock);
  }

  lemma ResumeGoes(s: Machine, s': Machine, id: nat, f: Flight, x: Trail, chain: seq<Log>,
                   startBlock: nat) returns (t: Track)
    requires TrailOk(x, chain, startBlock) && x.pieces != [] && PassOk(f.pass, chain, startBlock)
    requires s.flights == map[id := f] && f.phase.Looking? && Asks(s, f, x, chain)
    requires !Differ(f.phase.hash, f.pass.provider.hashAt(f.phase.cursor))
    requires s' == Proceed(s, id, f.(from := f.phase.cursor), chain)
    ensures Goes(s', t, x, chain, startBlock)
    ensures t.done.Some? ==> MayPoll(f, t.done.value, chain, startBlock)
    ensures t.done.Some? <==> s'.flights == map[]
  {
    KeepsResume(StoreOf(s), chain, x, startBlock, NO_TABLES, NO_ALERTS);
    SetsOut(StoreOf(s), id, x, f.(from := f.phase.cursor), chain);
    t := Proceeds(s, id, f.(from := f.phase.cursor), x, SetOut(id, x, Begin(x, f.pass, chain)), chain, startBlock);
  }

  lemma LookGoes(s: Machine, id: nat, f: Flight, x: Trail, chain: seq<Log>, startBlock: nat) returns (t: Track)
    requires TrailOk(x, chain, startBlock) && x.pieces != [] && PassOk(f.pass, chain, startBlock)
    requires s.flights == map[id := f] && f.phase.Looking? && Asks(s, f, x, chain)
    ensures Goes(Looked(s, id, f, chain), t, x, chain, startBlock)
    ensures t.done.Some? ==> MayPoll(f, t.done.value, chain, startBlock)
    ensures t.done.Some? <==> Looked(s, id, f, chain).flights == map[]
  {
    var s' := Looked(s, id, f, chain);
    if Differ(f.phase.hash, f.pass.provider.hashAt(f.phase.cursor)) {
      t := WipeGoes(s, s', id, f, x, chain, startBlock);
    } else {
      t := ResumeGoes(s, s', id, f, x, chain, startBlock);
    }
  }

  lemma HashGoes(s: Machine, id: nat, f: Flight, x: Trail, r: Ride, chain: seq<Log>, startBlock: nat) returns (t: Track)
    requires TrailOk(x, chain, startBlock) && x.pieces != [] && PassOk(f.pass, chain, startBlock)
    requires s.flights == map[id := f] && f.phase.Hashing? && f.chunks > 0 && Rides(StoreOf(s), r, f, x, chain)
    ensures Goes(Proceed(HashWritten(s, f), id, NextChunk(f), chain), t, x, chain, startBlock)
    ensures t.done.Some? ==> MayPoll(f, t.done.value, chain, startBlock)
    ensures t.done.Some? <==> Proceed(HashWritten(s, f), id, NextChunk(f), chain).flights == map[]
  {
    UptoMonotone(chain, f.from, f.phase.to);
    ChunkOnTheWay(r, f, NextChunk(f), chain);
    t := Proceeds(HashWritten(s, f), id, NextChunk(f), x, Onward(r, f.phase.to, chain), chain, startBlock);
  }

  /** The rest of a pass: its waits between the node's answers. */
  ghost predicate MidPass(s: Machine, id: nat, f: Flight, x: Trail, r: Ride, chain: seq<Log>, startBlock: nat)
  {
    && TrailOk(x, chain, startBlock) && x.pieces != [] && PassOk(f.pass, chain, startBlock)
    && s.flights == map[id := f] && !f.phase.Looking? && Rides(StoreOf(s), r, f, x, chain)
  }

  /** A step that has moved the pass along the same ride. */
  lemma StillRides(s: Machine, s': Machine, id: nat, f: Flight, f': Flight, x: Trail, r: Ride, chain: seq<Log>,
                   startBlock: nat)
    requires MidPass(s, id, f, x, r, chain, startBlock)
    requires s'.flights == map[id := f'] && f'.pass == f.pass && f'.chunks == f.chunks
    requires Riding(StoreOf(s'), r, f', chain, HeldFresh(r.y, chain))
    ensures MidPass(s', id, f', x, r, chain, startBlock)
  {
    SameWay(r, f, f', chain);
  }

  lemma FetchGoes(s: Machine, id: nat, f: Flight, x: Trail, r: Ride, chain: seq<Log>, startBlock: nat)
    requires MidPass(s, id, f, x, r, chain, startBlock) && f.phase.Fetching?
    ensures var s' := MoveFlight(s, Fetch(id), f, chain);
      id in s'.flights && MidPass(s', id, s'.flights[id], x, r, chain, startBlock)
  {
    RideFetch(StoreOf(s), r, f, chain, HeldFresh(r.y, chain));
    var f' := f.(phase := Scanning(f.phase.to, Upto(chain, f.from), Upto(chain, f.phase.to)));
    StillRides(s, MoveFlight(s, Fetch(id), f, chain), id, f, f', x, r, chain, startBlock);
  }

  lemma CheckGoes(s: Machine, id: nat, f: Flight, x: Trail, r: Ride, chain: seq<Log>, startBlock: nat)
    requires MidPass(s, id, f, x, r, chain, startBlock) && f.phase.Scanning? && f.phase.next < f.phase.hi <= |chain|
    ensures var s' := Tested(s, id, f, chain);
      id in s'.flights && MidPass(s', id, s'.flights[id], x, r, chain, startBlock)
  {
    RideCheck(StoreOf(s), r, f, chain, HeldFresh(r.y, chain));
    var s' := Tested(s, id, f, chain);
    StillRides(s, s', id, f, s'.flights[id], x, r, chain, startBlock);
  }

  lemma ApplyGoes(s: Machine, id: nat, f: Flight, x: Trail, r: Ride, chain: seq<Log>, startBlock: nat)
    requires MidPass(s, id, f, x, r, chain, startBlock) && f.phase.Checked? && f.phase.next < |chain|
    ensures var s' := Taken(s, id, f, chain);
      id in s'.flights && MidPass(s', id, s'.flights[id], x, r, chain, startBlock)
  {
    var s' := Taken(s, id, f, chain);
    assert s'.flights == map[id := s'.flights[id]];
    RideApply(StoreOf(s), StoreOf(s'), r, f, s'.flights[id], chain, HeldFresh(r.y, chain));
    StillRides(s, s', id, f, s'.flights[id], x, r, chain, startBlock);
  }

  lemma MarkGoes(s: Machine, id: nat, f: Flight, x: Trail, r: Ride, chain: seq<Log>, startBlock: nat)
    requires MidPass(s, id, f, x, r, chain, startBlock) && f.phase.Applied? && f.phase.next < |chain|
    ensures var s' := Noted(s, id, f, chain);
      id in s'.flights && MidPass(s', id, s'.flights[id], x, r, chain, startBlock)
  {
    var s' := Noted(s, id, f, chain);
    RideMark(StoreOf(s), StoreOf(s'), r, f, s'.flights[id], chain, HeldFresh(r.y, chain));
    StillRides(s, s', id, f, s'.flights[id], x, r, chain, startBlock);
  }

  lemma CursorGoes(s: Machine, id: nat, f: Flight, x: Trail, r: Ride, chain: seq<Log>, startBlock: nat)
    requires MidPass(s, id, f, x, r, chain, startBlock) && f.phase.Scanning? && f.phase.next >= f.phase.hi
    ensures var s' := MoveFlight(s, WriteCursor(id), f, chain);
      id in s'.flights && MidPass(s', id, s'.flights[id], x, r, chain, startBlock)
  {
    RideCursor(StoreOf(s), r, f, chain, HeldFresh(r.y, chain));
    var f' := f.(phase := Hashing(f.phase.to));
    StillRides(s, MoveFlight(s, WriteCursor(id), f, chain), id, f, f', x, r, chain, startBlock);
  }

  lemma StepGoes(s: Machine, step: Step, f: Flight, x: Trail, r: Ride, chain: seq<Log>, startBlock: nat)
    requires step.Fetch? || step.Check? || step.Apply? || step.Mark? || step.WriteCursor?
    requires MidPass(s, step.id, f, x, r, chain, startBlock)
    ensures var s' := MoveFlight(s, step, f, chain);
      step.id in s'.flights && MidPass(s', step.id, s'.flights[step.id], x, r, chain, startBlock)
  {
    match step {
      case Fetch(id) =>
        if f.phase.Fetching? {
          FetchGoes(s, id, f, x, r, chain, startBlock);
        }
      case Check(id) =>
        if f.phase.Scanning? && f.phase.next < f.phase.hi <= |chain| {
          CheckGoes(s, id, f, x, r, chain, startBlock);
        }
      case Apply(id) =>
        if f.phase.Checked? && f.phase.next < |chain| {
          ApplyGoes(s, id, f, x, r, chain, startBlock);
        }
      case Mark(id) =>
        if f.phase.Applied? && f.phase.next < |chain| {
          MarkGoes(s, id, f, x, r, chain, startBlock);
        }
      case WriteCursor(id) =>
        if f.phase.Scanning? && f.phase.next >= f.phase.hi {
          CursorGoes(s, id, f, x, r, chain, startBlock);
        }
    }
  }

  lemma SameWay(r: Ride, f: Flight, f': Flight, chain: seq<Log>)
    requires r.y.pieces != [] && OnTheWay(r, f, chain) && f'.pass == f.pass && f'.chunks == f.chunks
    ensures OnTheWay(r, f', chain)
  {
    forall left: Option<nat>
      ensures Comes(r, f', chain, left)
    {
      assert Comes(r, f, chain, left);
    }
  }

  // ---- whole runs ----

  /** A pass starts only when none is in flight, and no process dies between applying a
      log and marking it. */
  ghost predicate NoOverlap(steps: seq<Step>, chain: seq<Log>)
  {
    forall n: nat :: n < |steps| ==> AloneAt(steps, n, chain)
  }

  ghost predicate Alone(s: Machine, step: Step)
  {
    && (step.Enter? ==> s.flights == map[])
    && (step.Die? ==> forall q :: q in s.flights ==> !s.flights[q].phase.Applied?)
  }

  /** A pass that fails or dies. */
  lemma StopGoes(s: Machine, s': Machine, x: Trail, id: nat, r: Ride, chain: seq<Log>, startBlock: nat)
    returns (t: Track)
    requires Tracks(s, x, id, r, chain, startBlock) && s.flights != map[] && !s.flights[id].phase.Applied?
    requires StoreOf(s') == StoreOf(s) && s'.flights == map[]
    ensures Goes(s', t, x, chain, startBlock)
    ensures t.done.Some? ==> MayPoll(s.flights[id], t.done.value, chain, startBlock)
    ensures t.done.Some? <==> !s.flights[id].phase.Looking?
  {
    var f := s.flights[id];
    if f.phase.Looking? {
      t := Track(x, id, r, None);
    } else {
      BeginKeepsTrail(x, f.pass, chain, startBlock);
      CutShort(StoreOf(s), r, f, chain, startBlock, NO_TABLES, NO_ALERTS);
      var p := Budgeted(f.pass, Some(r.spent + Taking(r, f, chain)));
      SameBegin(x, f.pass, p.budget, chain);
      PollKeepsTrail(x, p, chain, startBlock);
      t := Track(Poll(x, p, chain), id, r, Some(p));
    }
  }

  /** The pass that this step ends, as it was started: it finishes, fails or dies. A pass
      that dies before the node has answered has done nothing, and does not count. */
  ghost function EndedNow(s: Machine, step: Step, chain: seq<Log>): Option<Pass>
  {
    var left := Move(s, step, chain).flights;
    if step.Enter? then (if step.id in s.flights || step.id in left then None else Some(step.pass))
    else if step.Die? then
      if exists q :: Underway(s, q) then var q :| Underway(s, q); Some(s.flights[q].pass) else None
    else if step.id in s.flights && step.id !in left then Some(s.flights[step.id].pass)
    else None
  }

  predicate Underway(s: Machine, q: nat)
  {
    q in s.flights && !s.flights[q].phase.Looking?
  }

  /** The passes that these steps end, in that order. */
  ghost function Ended(steps: seq<Step>, chain: seq<Log>): seq<Pass>
  {
    if steps == [] then []
    else
      var before, last := steps[..|steps| - 1], steps[|steps| - 1];
      var p := EndedNow(After(FRESH, before, chain), last, chain);
      Ended(before, chain) + if p.Some? then [p.value] else []
  }

  /** The same pass, or none at all, but for how long it lives. */
  ghost predicate SameEnd(done: Option<Pass>, p: Option<Pass>)
  {
    && (done.Some? <==> p.Some?)
    && (p.Some? ==> done.value == Budgeted(p.value, done.value.budget))
  }

  /** A pass is gone when nothing is in flight any more. */
  lemma OnlyItsOwn(s: Machine, step: Step, chain: seq<Log>)
    requires !step.Die?
    requires s.flights == map[] || (step.id in s.flights && s.flights == map[step.id := s.flights[step.id]])
    ensures Move(s, step, chain).flights == map[] <==> step.id !in Move(s, step, chain).flights
  {
    forall q | q in Move(s, step, chain).flights
      ensures q == step.id
    {
    }
  }

  lemma EnterMoves(s: Machine, s': Machine, step: Step, x: Trail, chain: seq<Log>, startBlock: nat) returns (t: Track)
    requires TrailOk(x, chain, startBlock) && x.pieces != [] && Fits(StoreOf(s), x, chain)
    requires step.Enter? && StepOk(step, chain, startBlock) && s.flights == map[] && s' == Move(s, step, chain)
    ensures Goes(s', t, x, chain, startBlock) && SameEnd(t.done, EndedNow(s, step, chain))
    ensures t.done.Some? ==> PassOk(t.done.value, chain, startBlock)
  {
    t := EnterGoes(s, step.id, step.pass, x, chain, startBlock);
    OnlyItsOwn(s, step, chain);
  }

  lemma StopMoves(s: Machine, s': Machine, step: Step, x: Trail, id: nat, r: Ride, chain: seq<Log>, startBlock: nat)
    returns (t: Track)
    requires Tracks(s, x, id, r, chain, startBlock) && s.flights != map[] && Alone(s, step)
    requires step.Die? || (step.Fail? && step.id == id)
    requires s' == Move(s, step, chain) && s'.flights != s.flights
    ensures Goes(s', t, x, chain, startBlock) && SameEnd(t.done, EndedNow(s, step, chain))
    ensures t.done.Some? ==> PassOk(t.done.value, chain, startBlock)
  {
    t := StopGoes(s, s', x, id, r, chain, startBlock);
    assert Underway(s, id) <==> !s.flights[id].phase.Looking?;
  }

  lemma FlightMoves(s: Machine, s': Machine, step: Step, x: Trail, id: nat, r: Ride, chain: seq<Log>, startBlock: nat)
    returns (t: Track)
    requires Tracks(s, x, id, r, chain, startBlock) && s.flights != map[]
    requires !step.Die? && !step.Enter? && !step.Fail? && step.id == id && s' == Move(s, step, chain)
    ensures Goes(s', t, x, chain, startBlock) && SameEnd(t.done, EndedNow(s, step, chain))
    ensures t.done.Some? ==> PassOk(t.done.value, chain, startBlock)
  {
    t := FlightGoes(s, step, s.flights[id], x, r, chain, startBlock);
    OnlyItsOwn(s, step, chain);
  }

  /** A step of no pass in flight, or one that is not enabled. */
  lemma NothingMoves(s: Machine, step: Step, chain: seq<Log>)
    requires step.Enter? ==> step.id in s.flights
    requires !step.Enter? && !step.Die? && step.id in s.flights ==>
               step.Fail? && Move(s, step, chain).flights == s.flights
    requires step.Die? ==> s.flights == map[]
    ensures StoreOf(Move(s, step, chain)) == StoreOf(s) && Move(s, step, chain).flights == s.flights
    ensures EndedNow(s, step, chain) == None
  {
  }

  lemma StaysPut(s: Machine, s': Machine, x: Trail, id: nat, r: Ride, chain: seq<Log>, startBlock: nat)
    requires Tracks(s, x, id, r, chain, startBlock) && StoreOf(s') == StoreOf(s) && s'.flights == s.flights
    ensures Goes(s', Track(x, id, r, None), x, chain, startBlock)
  {
  }

  /** One step of a run without overlap: the schedule so far, or one pass more, the one
      that this step ends. */
  lemma MoveGoes(s: Machine, s': Machine, step: Step, x: Trail, id: nat, r: Ride, chain: seq<Log>, startBlock: nat)
    returns (t: Track)
    requires Tracks(s, x, id, r, chain, startBlock) && StepOk(step, chain, startBlock) && Alone(s, step)
    requires s' == Move(s, step, chain)
    ensures Goes(s', t, x, chain, startBlock) && SameEnd(t.done, EndedNow(s, step, chain))
    ensures t.done.Some? ==> PassOk(t.done.value, chain, startBlock)
  {
    if s.flights == map[] && step.Enter? {
      t := EnterMoves(s, s', step, x, chain, startBlock);
    } else if s.flights != map[] && (step.Die? || (step.Fail? && step.id == id && s'.flights != s.flights)) {
      t := StopMoves(s, s', step, x, id, r, chain, startBlock);
    } else if s.flights == map[] || step.id != id || step.Fail? {
      t := Track(x, id, r, None);
      NothingMoves(s, step, chain);
      StaysPut(s, s', x, id, r, chain, startBlock);
    } else {
      t := FlightMoves(s, s', step, x, id, r, chain, startBlock);
    }
  }

  lemma FlightGoes(s: Machine, step: Step, f: Flight, x: Trail, r: Ride, chain: seq<Log>, startBlock: nat)
    returns (t: Track)
    requires !step.Die? && !step.Enter? && !step.Fail? && s.flights == map[step.id := f]
    requires Tracks(s, x, step.id, r, chain, startBlock)
    ensures Goes(MoveFlight(s, step, f, chain), t, x, chain, startBlock)
    ensures t.done.Some? ==> MayPoll(f, t.done.value, chain, startBlock)
    ensures t.done.Some? <==> MoveFlight(s, step, f, chain).flights == map[]
  {
    t := Track(x, step.id, r, None);
    assert step.id in s.flights && s.flights[step.id] == f;
    if step.Look? {
      if f.phase.Looking? {
        t := LookGoes(s, step.id, f, x, chain, startBlock);
      }
    } else if step.WriteHash? {
      if f.phase.Hashing? && f.chunks > 0 {
        t := HashGoes(s, step.id, f, x, r, chain, startBlock);
      }
    } else if !f.phase.Looking? {
      StepGoes(s, step, f, x, r, chain, startBlock);
    }
  }

  /** A pass with the node and the settings of one that the steps start. */
  ghost predicate Drawn(p: Pass, steps: seq<Step>)
  {
    exists i :: 0 <= i < |steps| && steps[i].Enter? && p == Budgeted(steps[i].pass, p.budget)
  }

  lemma StillDrawn(p: Pass, steps: seq<Step>, step: Step)
    requires Drawn(p, steps)
    ensures Drawn(p, steps + [step])
  {
    var i :| 0 <= i < |steps| && steps[i].Enter? && p == Budgeted(steps[i].pass, p.budget);
    assert (steps + [step])[i] == steps[i];
  }

  lemma DrawnNow(p: Pass, steps: seq<Step>, step: Step)
    requires step.Enter? && p == Budgeted(step.pass, p.budget)
    ensures Drawn(p, steps + [step])
  {
    assert (steps + [step])[|steps|] == step;
  }

  ghost predicate FlightsDrawn(s: Machine, steps: seq<Step>)
  {
    forall q :: q in s.flights ==> Drawn(s.flights[q].pass, steps)
  }

  lemma MoveDrawn(s: Machine, step: Step, steps: seq<Step>, chain: seq<Log>)
    requires FlightsDrawn(s, steps)
    ensures FlightsDrawn(Move(s, step, chain), steps + [step])
  {
    PassesKept(s, step, chain);
    var s' := Move(s, step, chain);
    forall q | q in s'.flights
      ensures Drawn(s'.flights[q].pass, steps + [step])
    {
      if q in s.flights {
        StillDrawn(s.flights[q].pass, steps, step);
      } else {
        DrawnNow(step.pass, steps, step);
      }
    }
  }

  lemma DoneIsDrawn(s: Machine, step: Step, p: Pass, steps: seq<Step>, chain: seq<Log>)
    requires FlightsDrawn(s, steps) && SameEnd(Some(p), EndedNow(s, step, chain))
    ensures Drawn(p, steps + [step])
  {
    if step.Enter? {
      DrawnNow(p, steps, step);
    } else {
      var ended := EndedNow(s, step, chain).value;
      var q :| q in s.flights && s.flights[q].pass == ended;
      StillDrawn(ended, steps, step);
      DrawnAnyLife(ended, p.budget, steps + [step]);
    }
  }

  lemma DrawnAnyLife(p: Pass, budget: Option<nat>, steps: seq<Step>)
    requires Drawn(p, steps)
    ensures Drawn(Budgeted(p, budget), steps)
  {
    var i :| 0 <= i < |steps| && steps[i].Enter? && p == Budgeted(steps[i].pass, p.budget);
    assert Budgeted(p, budget) == Budgeted(steps[i].pass, budget);
  }

  /** These passes one for one, each with a life of its own. */
  ghost predicate OneForOne(passes: seq<Pass>, ended: seq<Pass>)
  {
    && |passes| == |ended|
    && forall i :: 0 <= i < |passes| ==> passes[i] == Budgeted(ended[i], passes[i].budget)
  }

  /** The machine agrees with a schedule of its own passes. */
  ghost predicate Agrees(s: Machine, steps: seq<Step>, passes: seq<Pass>, id: nat, r: Ride, chain: seq<Log>,
                         startBlock: nat)
  {
    && PassesOk(passes, chain, startBlock) && (forall p :: p in passes ==> Drawn(p, steps)) && FlightsDrawn(s, steps)
    && OneForOne(passes, Ended(steps, chain))
    && Tracks(s, Run(Start(chain, startBlock), passes, chain), id, r, chain, startBlock)
  }

  lemma EndedNext(s: Machine, step: Step, steps: seq<Step>, chain: seq<Log>, passes: seq<Pass>, done: Option<Pass>)
    requires s == After(FRESH, steps, chain)
    requires OneForOne(passes, Ended(steps, chain)) && SameEnd(done, EndedNow(s, step, chain))
    ensures OneForOne(if done.Some? then passes + [done.value] else passes, Ended(steps + [step], chain))
  {
    assert (steps + [step])[..|steps|] == steps;
  }

  /** The schedule after one step more. */
  lemma AgreesNext(s: Machine, step: Step, steps: seq<Step>, passes: seq<Pass>, id: nat, r: Ride, chain: seq<Log>,
                   startBlock: nat) returns (passes': seq<Pass>, id': nat, r': Ride)
    requires s == After(FRESH, steps, chain)
    requires Agrees(s, steps, passes, id, r, chain, startBlock) && StepOk(step, chain, startBlock) && Alone(s, step)
    ensures Agrees(Move(s, step, chain), steps + [step], passes', id', r', chain, startBlock)
  {
    var t := MoveGoes(s, Move(s, step, chain), step, Run(Start(chain, startBlock), passes, chain), id, r, chain,
                      startBlock);
    MoveDrawn(s, step, steps, chain);
    EndedNext(s, step, steps, chain, passes, t.done);
    PassesStayDrawn(s, step, steps, passes, t.done, chain);
    passes', id', r' := passes, t.id, t.r;
    if t.done.Some? {
      OnePassMore(passes, t.done.value, chain, startBlock);
      passes' := passes + [t.done.value];
    }
  }

  lemma PassesStayDrawn(s: Machine, step: Step, steps: seq<Step>, passes: seq<Pass>, done: Option<Pass>,
                        chain: seq<Log>)
    requires FlightsDrawn(s, steps) && SameEnd(done, EndedNow(s, step, chain))
    requires forall p :: p in passes ==> Drawn(p, steps)
    ensures forall p :: p in passes || done == Some(p) ==> Drawn(p, steps + [step])
  {
    forall p | p in passes
      ensures Drawn(p, steps + [step])
    {
      StillDrawn(p, steps, step);
    }
    if done.Some? {
      DoneIsDrawn(s, step, done.value, steps, chain);
    }
  }

  lemma OnePassMore(passes: seq<Pass>, p: Pass, chain: seq<Log>, startBlock: nat)
    requires PassesOk(passes, chain, startBlock) && PassOk(p, chain, startBlock)
    ensures PassesOk(passes + [p], chain, startBlock)
    ensures CanPoll(Run(Start(chain, startBlock), passes, chain), p)
    ensures Run(Start(chain, startBlock), passes + [p], chain)
            == Poll(Run(Start(chain, startBlock), passes, chain), p, chain)
  {
    assert (passes + [p])[..|passes|] == passes;
  }

  lemma FreshFits(chain: seq<Log>, startBlock: nat)
    requires ChainOk(chain)
    ensures TrailOk(Start(chain, startBlock), chain, startBlock)
    ensures Fits(StoreOf(FRESH), Start(chain, startBlock), chain)
  {
    StartOk(chain, startBlock);
    StartKeeps(chain, startBlock);
  }

  ghost predicate AloneAt(steps: seq<Step>, n: nat, chain: seq<Log>)
    requires n < |steps|
  {
    Alone(After(FRESH, steps[..n], chain), steps[n])
  }

  lemma BeforeIsAlone(steps: seq<Step>, chain: seq<Log>)
    requires steps != [] && NoOverlap(steps, chain)
    ensures NoOverlap(steps[..|steps| - 1], chain) && AloneAt(steps, |steps| - 1, chain)
  {
    var before := steps[..|steps| - 1];
    forall n: nat | n < |before|
      ensures AloneAt(before, n, chain)
    {
      assert AloneAt(steps, n, chain) && before[..n] == steps[..n];
    }
    assert AloneAt(steps, |steps| - 1, chain);
  }

  lemma LastIsAlone(steps: seq<Step>, before: seq<Step>, last: Step, chain: seq<Log>, startBlock: nat)
    requires steps != [] && before == steps[..|steps| - 1] && last == steps[|steps| - 1]
    requires StepsOk(steps, chain, startBlock) && NoOverlap(steps, chain)
    ensures StepsOk(before, chain, startBlock) && NoOverlap(before, chain)
    ensures StepOk(last, chain, startBlock) && Alone(After(FRESH, before, chain), last) && before + [last] == steps
  {
    BeforeIsAlone(steps, chain);
    assert forall i :: 0 <= i < |before| ==> before[i] == steps[i];
  }

  lemma {:induction false} SerialRun(steps: seq<Step>, chain: seq<Log>, startBlock: nat)
    returns (passes: seq<Pass>, id: nat, r: Ride)
    requires ChainOk(chain) && StepsOk(steps, chain, startBlock) && NoOverlap(steps, chain)
    ensures Agrees(After(FRESH, steps, chain), steps, passes, id, r, chain, startBlock)
  {
    if steps == [] {
      FreshFits(chain, startBlock);
      passes, id := [], 0;
      r := SetOut(0, Start(chain, startBlock), Start(chain, startBlock));
    } else {
      var before, last := steps[..|steps| - 1], steps[|steps| - 1];
      LastIsAlone(steps, before, last, chain, startBlock);
      passes, id, r := SerialRun(before, chain, startBlock);
      passes, id, r := AgreesNext(After(FRESH, before, chain), last, before, passes, id, r, chain, startBlock);
    }
  }

  /** Whenever no pass is in flight, a run without overlap has stored exactly what a
      schedule stores whose passes are those that have ended, one for one and in that
      order, each with its point of death. */
  lemma NoOverlapIsSchedule(steps: seq<Step>, chain: seq<Log>, startBlock: nat)
    requires ChainOk(chain) && StepsOk(steps, chain, startBlock) && NoOverlap(steps, chain)
    requires After(FRESH, steps, chain).flights == map[]
    ensures exists passes: seq<Pass> ::
              && PassesOk(passes, chain, startBlock) && OneForOne(passes, Ended(steps, chain))
              && (forall p :: p in passes ==> Drawn(p, steps))
              && Fits(StoreOf(After(FRESH, steps, chain)), Run(Start(chain, startBlock), passes, chain), chain)
  {
    var passes, id, r := SerialRun(steps, chain, startBlock);
  }
}
