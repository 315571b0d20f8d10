/** Sybil farming: many identities attest for themselves and confirm each other
    in a ring, while watchers dispute some of it. The simulation is proved equal
    to a closed form for every stream of dispute outcomes. */
module SybilScenario {

  import opened Parties
  import opened Arithmetic
  import opened Mechanism
  import opened Bookkeeping
  import opened Spending
  import opened SybilRound

  datatype SybilResult = SybilResult(totalScore: int, honestScore: int, totalReceipts: nat,
                                     spentWei: int, lockedWei: int, costPerPointWei: real,
                                     honestCostPerPointWei: real, efficiencyRatio: real,
                                     challenges: nat, disputes: nat)

  function CountUpheld(outcomes: seq<Outcome>): (n: nat)
    ensures n <= |outcomes|
  {
    if outcomes == [] then 0
    else CountUpheld(outcomes[..|outcomes| - 1]) + (if outcomes[|outcomes| - 1].Upheld? then 1 else 0)
  }

  function CountChallenged(outcomes: seq<Outcome>): nat
  {
    if outcomes == [] then 0
    else CountChallenged(outcomes[..|outcomes| - 1]) + (if outcomes[|outcomes| - 1].Unchallenged? then 0 else 1)
  }

  function TotalFarmed(v: Version, k: nat, outcomes: seq<seq<Outcome>>): nat
  {
    if outcomes == [] then 0
    else TotalFarmed(v, k, outcomes[..|outcomes| - 1]) + FarmedScore(v, k, CountUpheld(outcomes[|outcomes| - 1]))
  }

  function TotalUpheld(outcomes: seq<seq<Outcome>>): nat
  {
    if outcomes == [] then 0
    else TotalUpheld(outcomes[..|outcomes| - 1]) + CountUpheld(outcomes[|outcomes| - 1])
  }

  function TotalChallenged(outcomes: seq<seq<Outcome>>): nat
  {
    if outcomes == [] then 0
    else TotalChallenged(outcomes[..|outcomes| - 1]) + CountChallenged(outcomes[|outcomes| - 1])
  }

  // ---- the driver ----

  /** The ring neighbour that confirms completion `k` of identity `s`. */
  function RingNeighbour(s: nat, k: nat, sybils: nat): Party
    requires sybils > 0
  {
    Party((s + 1 + k) % sybils)
  }

  function Neighbours(s: nat, k: nat, sybils: nat): set<Party>
    requires sybils > 0
  {
    set j: nat | j < k :: RingNeighbour(s, j, sybils)
  }

  lemma NeighboursDiffer(s: nat, j: nat, k: nat, sybils: nat)
    requires s < sybils && j < k && k + 1 < sybils
    ensures RingNeighbour(s, k, sybils) != RingNeighbour(s, j, sybils)
  {
    WrapOnce(s + 1 + j, sybils);
    WrapOnce(s + 1 + k, sybils);
  }

  /** With fewer completions than identities no neighbour repeats and none is the identity itself. */
  lemma NeighbourIsNew(s: nat, k: nat, sybils: nat)
    requires s < sybils && k + 1 < sybils
    ensures RingNeighbour(s, k, sybils) != Party(s)
    ensures RingNeighbour(s, k, sybils) !in Neighbours(s, k, sybils)
    ensures Neighbours(s, k + 1, sybils) == Neighbours(s, k, sybils) + {RingNeighbour(s, k, sybils)}
  {
    WrapOnce(s + 1 + k, sybils);
    forall f | f in Neighbours(s, k, sybils)
      ensures f != RingNeighbour(s, k, sybils)
    {
      var j: nat :| j < k && f == RingNeighbour(s, j, sybils);
      NeighboursDiffer(s, j, k, sybils);
    }
  }

  lemma WrapOnce(x: nat, n: nat)
    requires 0 < n && x < 2 * n
    ensures x % n == if x < n then x else x - n
  {
    if x >= n {
      assert x == n + (x - n);
    }
  }

  predicate SameStake(r: AgentState, s: AgentState)
  {
    r.lockedWei == s.lockedWei
  }

  /** Nobody but `a` changed standing, and no account below the challengers changed stake. */
  ghost predicate BystandersKept(w: World, w': World, a: Party)
  {
    && (forall b :: b != a ==> SameStanding(Agent(w', b), Agent(w, b)))
    && (forall b :: b != a && b.id < FIRST_CHALLENGER ==> SameStake(Agent(w', b), Agent(w, b)))
  }

  lemma BystandersTwice(w: World, w1: World, w2: World, a: Party)
    requires BystandersKept(w, w1, a) && BystandersKept(w1, w2, a)
    ensures BystandersKept(w, w2, a)
  {
    forall b | b != a
      ensures SameStanding(Agent(w2, b), Agent(w, b))
    {
      assert SameStanding(Agent(w1, b), Agent(w, b)) && SameStanding(Agent(w2, b), Agent(w1, b));
    }
    forall b | b != a && b.id < FIRST_CHALLENGER
      ensures SameStake(Agent(w2, b), Agent(w, b))
    {
      assert SameStake(Agent(w1, b), Agent(w, b)) && SameStake(Agent(w2, b), Agent(w1, b));
    }
  }

  /** One farmed completion, driven through the simulator. */
  method FarmOne(sim: Simulator, a: Party, from: Option<Party>, outcome: Outcome, challenger: Party,
                 ghost k: nat, ghost d: nat, ghost used: set<Party>, ghost stake: nat)
    requires Numbered(sim.Value())
    requires Farmed(Agent(sim.Value(), a), sim.version, k, d, used)
    requires StakeLeft(Agent(sim.Value(), a), sim.version, stake, d)
    requires from.Some? <==> sim.version.RequiresReceipts()
    requires from.Some? ==> from.value != a && from.value !in used
    requires sim.version.V05? && !outcome.Unchallenged? ==> challenger != a
    requires !outcome.Unchallenged? ==> challenger.id >= FIRST_CHALLENGER
    modifies sim
    ensures RoundPaid(old(sim.Value()), sim.Value(), a, from)
    ensures RoundDone(old(sim.Value()), sim.Value(), sim.version, a, k + 1, d + (if outcome.Upheld? then 1 else 0),
                      used + Offered(from), stake, if outcome.Unchallenged? then a else challenger)
  {
    RoundFarms(sim.Value(), sim.version, sim.params, a, from, outcome, challenger, k, d, used, stake);
    RoundCosts(sim.Value(), sim.version, sim.params, a, from, outcome, challenger);
    var completionId := sim.Attest(a, 0);
    if from.Some? {
      sim.Rate(from.value, a);
    }
    if !outcome.Unchallenged? {
      sim.Challenge(completionId, challenger);
      sim.Resolve(completionId, outcome.Upheld?);
    }
    assert sim.Value() == FarmRound(old(sim.Value()), sim.version, sim.params, a, from, outcome, challenger);
  }

  /** Stake for the target score, where the version asks for it. */
  method LockForScore(sim: Simulator, a: Party, target: nat)
    requires Farmed(Agent(sim.Value(), a), sim.version, 0, 0, {})
    requires StakeLeft(Agent(sim.Value(), a), sim.version, 0, 0)
    modifies sim
    ensures sim.Value().completions == old(sim.Value()).completions
    ensures Numbered(old(sim.Value())) ==> Numbered(sim.Value())
    ensures Farmed(Agent(sim.Value(), a), sim.version, 0, 0, {})
    ensures StakeLeft(Agent(sim.Value(), a), sim.version, target * STAKE_PER_POINT_WEI, 0)
    ensures BystandersKept(old(sim.Value()), sim.Value(), a)
    ensures forall b :: Capital(sim.Value(), b)
                     == Capital(old(sim.Value()), b) + Share(b, Some(a), target * StakePrice(sim.version))
  {
    if sim.version.V05? {
      sim.LockCapital(a, CapitalRequiredForScore(target));
    }
  }

  ghost predicate Ready(w: World, v: Version, a: Party)
  {
    Farmed(Agent(w, a), v, 0, 0, {}) && StakeLeft(Agent(w, a), v, 0, 0)
  }

  /** The honest arm: `k` completions, each confirmed by its own counterparty. */
  method FarmHonest(sim: Simulator, k: nat)
    requires Numbered(sim.Value()) && Ready(sim.Value(), sim.version, Party(-1))
    modifies sim
    ensures Numbered(sim.Value())
    ensures HonestDone(sim.Value(), sim.version, k)
    ensures BystandersKept(old(sim.Value()), sim.Value(), Party(-1))
    ensures AttackersKept(old(sim.Value()), sim.Value())
    ensures HonestRaised(old(sim.Value()), sim.Value(), sim.version, k, Outlay(sim.version, k, k))
  {
    LockForScore(sim, Party(-1), k);
    HonestPays(old(sim.Value()), sim.Value(), sim.version, k, k * StakePrice(sim.version), None, 0);
    ghost var used: set<Party> := {};
    for i := 0 to k
      invariant HonestMid(old(sim.Value()), sim.Value(), sim.version, k, i, used)
    {
      ghost var before := sim.Value();
      FarmHonestOne(sim, k, i, used);
      HonestMidStep(old(sim.Value()), before, sim.Value(), sim.version, k, i, used);
      used := used + Offered(HonestCounterparty(sim.version, i));
    }
  }

  /** The honest arm `i` completions in, begun in world `w0`. */
  ghost predicate HonestMid(w0: World, w: World, v: Version, k: nat, i: nat, used: set<Party>)
  {
    && HonestStanding(w, v, k, i, used)
    && BystandersKept(w0, w, Party(-1)) && AttackersKept(w0, w)
    && HonestRaised(w0, w, v, k, Outlay(v, k, i))
  }

  ghost predicate HonestStanding(w: World, v: Version, k: nat, i: nat, used: set<Party>)
  {
    && Numbered(w) && Farmed(Agent(w, Party(-1)), v, i, 0, used)
    && StakeLeft(Agent(w, Party(-1)), v, k * STAKE_PER_POINT_WEI, 0)
    && forall f :: f in used ==> -1000 - i < f.id <= -1000
  }

  lemma HonestMidStep(w0: World, w: World, w': World, v: Version, k: nat, i: nat, used: set<Party>)
    requires HonestMid(w0, w, v, k, i, used)
    requires HonestStanding(w', v, k, i + 1, used + Offered(HonestCounterparty(v, i)))
    requires BystandersKept(w, w', Party(-1)) && AttackersKept(w, w') && HonestRaised(w, w', v, k, RoundPrice(v))
    ensures HonestMid(w0, w', v, k, i + 1, used + Offered(HonestCounterparty(v, i)))
  {
    BystandersTwice(w0, w, w', Party(-1));
    AttackersKeptTwice(w0, w, w');
    HonestRaisedTwice(w0, w, w', v, k, Outlay(v, k, i), RoundPrice(v));
  }

  /** The counterparty of the honest agent's completion `i`, where receipts are needed. */
  function HonestCounterparty(v: Version, i: nat): Option<Party>
  {
    if v.RequiresReceipts() then Some(Party(-1000 - i)) else None
  }

  method FarmHonestOne(sim: Simulator, ghost k: nat, i: nat, ghost used: set<Party>)
    requires i < k && HonestStanding(sim.Value(), sim.version, k, i, used)
    modifies sim
    ensures HonestStanding(sim.Value(), sim.version, k, i + 1, used + Offered(HonestCounterparty(sim.version, i)))
    ensures BystandersKept(old(sim.Value()), sim.Value(), Party(-1))
    ensures AttackersKept(old(sim.Value()), sim.Value())
    ensures HonestRaised(old(sim.Value()), sim.Value(), sim.version, k, RoundPrice(sim.version))
  {
    var from := HonestCounterparty(sim.version, i);
    FarmOne(sim, Party(-1), from, Unchallenged, Party(FIRST_CHALLENGER), i, 0, used, k * STAKE_PER_POINT_WEI);
    HonestPays(old(sim.Value()), sim.Value(), sim.version, k, ATTEST_COST, from, RECEIPT_COST);
    UntouchedAreBystanders(old(sim.Value()), sim.Value(), Party(-1), Party(-1));
  }

  // ---- capital ----

  /** What the honest agent and its counterparties have put up. */
  function HonestCapital(w: World, v: Version, k: nat): int
  {
    Capital(w, Party(-1)) + (if v.RequiresReceipts() then SumCapital(w, -999 - k, k) else 0)
  }

  ghost predicate HonestRaised(w: World, w': World, v: Version, k: nat, wei: int)
  {
    HonestCapital(w', v, k) == HonestCapital(w, v, k) + wei
  }

  lemma HonestRaisedTwice(w: World, w1: World, w2: World, v: Version, k: nat, x: int, y: int)
    requires HonestRaised(w, w1, v, k, x) && HonestRaised(w1, w2, v, k, y)
    ensures HonestRaised(w, w2, v, k, x + y)
  {
  }

  /** Capital of the identities, as far as none of them is numbered like a challenger. */
  ghost predicate FarmRaised(w: World, w': World, sybils: nat, wei: int)
  {
    sybils <= FIRST_CHALLENGER ==> SumCapital(w', 0, sybils) == SumCapital(w, 0, sybils) + wei
  }

  lemma FarmRaisedTwice(w: World, w1: World, w2: World, sybils: nat, x: int, y: int)
    requires FarmRaised(w, w1, sybils, x) && FarmRaised(w1, w2, sybils, y)
    ensures FarmRaised(w, w2, sybils, x + y)
  {
  }

  function RoundPrice(v: Version): nat
  {
    ATTEST_COST + ReceiptPrice(v)
  }

  /** What an account aiming at `k` points has cost after `i` completions. */
  function Outlay(v: Version, k: nat, i: nat): nat
  {
    if i == 0 then k * StakePrice(v) else Outlay(v, k, i - 1) + RoundPrice(v)
  }

  /** What `s` identities cost. */
  function FarmOutlay(v: Version, k: nat, s: nat): nat
  {
    if s == 0 then 0 else FarmOutlay(v, k, s - 1) + Outlay(v, k, k)
  }

  lemma {:induction false} OutlayIs(v: Version, k: nat, i: nat)
    ensures Outlay(v, k, i) == k * StakePrice(v) + i * RoundPrice(v)
  {
    if i > 0 {
      OutlayIs(v, k, i - 1);
      OneMore(i - 1, RoundPrice(v));
    }
  }

  /** An account's whole outlay is its points at the price of one. */
  lemma OutlayIsPrice(v: Version, k: nat)
    ensures Outlay(v, k, k) == k * PointPrice(v)
  {
    OutlayIs(v, k, k);
    Distribute(k, StakePrice(v), RoundPrice(v));
  }

  lemma {:induction false} FarmOutlayIs(v: Version, k: nat, s: nat)
    ensures FarmOutlay(v, k, s) == s * (k * PointPrice(v))
  {
    if s > 0 {
      FarmOutlayIs(v, k, s - 1);
      OutlayIsPrice(v, k);
      OneMore(s - 1, k * PointPrice(v));
    }
  }

  lemma Distribute(k: int, a: int, b: int)
    ensures k * a + k * b == k * (a + b)
  {
  }

  ghost predicate AttackersKept(w: World, w': World)
  {
    forall b: Party :: 0 <= b.id < FIRST_CHALLENGER ==> Capital(w', b) == Capital(w, b)
  }

  ghost predicate HonestKept(w: World, w': World)
  {
    forall b: Party :: b.id < 0 ==> Capital(w', b) == Capital(w, b)
  }

  lemma AttackersKeptTwice(w: World, w1: World, w2: World)
    requires AttackersKept(w, w1) && AttackersKept(w1, w2)
    ensures AttackersKept(w, w2)
  {
    forall b: Party | 0 <= b.id < FIRST_CHALLENGER
      ensures Capital(w2, b) == Capital(w, b)
    {
      assert Capital(w1, b) == Capital(w, b);
    }
  }

  lemma HonestKeptTwice(w: World, w1: World, w2: World)
    requires HonestKept(w, w1) && HonestKept(w1, w2)
    ensures HonestKept(w, w2)
  {
    forall b: Party | b.id < 0
      ensures Capital(w2, b) == Capital(w, b)
    {
      assert Capital(w1, b) == Capital(w, b);
    }
  }

  lemma HonestPays(w: World, w': World, v: Version, k: nat, x: int, from: Option<Party>, y: int)
    requires forall b: Party :: b.id < 0 ==>
               Capital(w', b) == Capital(w, b) + Share(b, Some(Party(-1)), x) + Share(b, from, y)
    requires from.Some? ==> v.RequiresReceipts() && InBlock(from.value, -999 - k, k)
    ensures HonestRaised(w, w', v, k, x + (if from.Some? then y else 0))
  {
    SumCapitalPaid(w, w', -999 - k, k, Some(Party(-1)), x, from, y);
  }

  lemma HonestCapitalKept(w: World, w': World, v: Version, k: nat)
    requires HonestKept(w, w')
    ensures HonestRaised(w, w', v, k, 0)
  {
    SumCapitalPaid(w, w', -999 - k, k, None, 0, None, 0);
  }

  lemma {:induction false} NobodyInvested(lo: int, n: nat)
    ensures SumCapital(EMPTY_WORLD, lo, n) == 0
  {
    if n > 0 {
      NobodyInvested(lo, n - 1);
    }
  }

  lemma OneMoreOutcome(outcomes: seq<Outcome>, i: nat)
    requires i < |outcomes|
    ensures outcomes[..i + 1] == outcomes[..i] + [outcomes[i]]
    ensures CountChallenged(outcomes[..i + 1])
         == CountChallenged(outcomes[..i]) + (if outcomes[i].Unchallenged? then 0 else 1)
    ensures CountUpheld(outcomes[..i + 1]) == CountUpheld(outcomes[..i]) + (if outcomes[i].Upheld? then 1 else 0)
  {
    assert outcomes[..i + 1][..i] == outcomes[..i];
  }

  /** One attacker identity: `k` completions confirmed around the ring, each at
      the watchers' mercy. `challenges` numbers the challengers across identities. */
  method FarmIdentity(sim: Simulator, s: nat, sybils: nat, k: nat, outcomes: seq<Outcome>, challenges: nat)
    returns (receipts: nat, challenges': nat, disputes: nat)
    requires s < sybils && |outcomes| == k
    requires sim.version.RequiresReceipts() ==> k < sybils
    requires sim.version.V05? ==> sybils <= FIRST_CHALLENGER
    requires Numbered(sim.Value()) && Ready(sim.Value(), sim.version, Party(s))
    modifies sim
    ensures Numbered(sim.Value()) && Finished(sim.Value(), sim.version, s, k, outcomes)
    ensures BystandersKept(old(sim.Value()), sim.Value(), Party(s))
    ensures receipts == if sim.version.RequiresReceipts() then k else 0
    ensures challenges' == challenges + CountChallenged(outcomes)
    ensures disputes == CountUpheld(outcomes)
    ensures HonestKept(old(sim.Value()), sim.Value())
    ensures FarmRaised(old(sim.Value()), sim.Value(), sybils, Outlay(sim.version, k, k))
  {
    receipts, challenges', disputes := 0, challenges, 0;
    LockForScore(sim, Party(s), k);
    SumCapitalPaid(old(sim.Value()), sim.Value(), 0, sybils, Some(Party(s)), k * StakePrice(sim.version), None, 0);
    for i := 0 to k
      invariant MidFarm(sim.Value(), sim.version, s, k, outcomes[..i], Used(sim.version, s, i, sybils))
      invariant IdentityKept(old(sim.Value()), sim.Value(), sim.version, s, sybils, k, i)
      invariant receipts == if sim.version.RequiresReceipts() then i else 0
      invariant challenges' == challenges + CountChallenged(outcomes[..i])
      invariant disputes == CountUpheld(outcomes[..i])
    {
      OneMoreOutcome(outcomes, i);
      ghost var before := sim.Value();
      if !outcomes[i].Unchallenged? {
        challenges' := challenges' + 1;
      }
      var receipt := FarmNext(sim, s, sybils, k, i, outcomes[..i], outcomes[i], challenges');
      receipts := receipts + receipt;
      if outcomes[i].Upheld? {
        disputes := disputes + 1;
      }
      IdentityKeptStep(old(sim.Value()), before, sim.Value(), sim.version, s, sybils, k, i);
    }
    assert outcomes[..k] == outcomes;
  }

  /** What identity `s` leaves alone, and what it has cost, `i` completions in. */
  ghost predicate IdentityKept(w0: World, w: World, v: Version, s: nat, sybils: nat, k: nat, i: nat)
  {
    BystandersKept(w0, w, Party(s)) && HonestKept(w0, w) && FarmRaised(w0, w, sybils, Outlay(v, k, i))
  }

  lemma IdentityKeptStep(w0: World, w: World, w': World, v: Version, s: nat, sybils: nat, k: nat, i: nat)
    requires IdentityKept(w0, w, v, s, sybils, k, i)
    requires BystandersKept(w, w', Party(s)) && HonestKept(w, w') && FarmRaised(w, w', sybils, RoundPrice(v))
    ensures IdentityKept(w0, w', v, s, sybils, k, i + 1)
  {
    BystandersTwice(w0, w, w', Party(s));
    HonestKeptTwice(w0, w, w');
    FarmRaisedTwice(w0, w, w', sybils, Outlay(v, k, i), RoundPrice(v));
  }

  /** The counterparties identity `s` has used for its first `i` completions. */
  function Used(v: Version, s: nat, i: nat, sybils: nat): set<Party>
    requires sybils > 0
  {
    if v.RequiresReceipts() then Neighbours(s, i, sybils) else {}
  }

  /** Completion `i` of identity `s`: the ring neighbour confirms it where receipts count. */
  method FarmNext(sim: Simulator, s: nat, sybils: nat, ghost k: nat, i: nat, ghost seen: seq<Outcome>,
                  outcome: Outcome, challenges: nat) returns (receipt: nat)
    requires s < sybils && i == |seen|
    requires sim.version.RequiresReceipts() ==> i + 1 < sybils
    requires sim.version.V05? ==> sybils <= FIRST_CHALLENGER
    requires !outcome.Unchallenged? ==> challenges >= 1
    requires MidFarm(sim.Value(), sim.version, s, k, seen, Used(sim.version, s, i, sybils))
    modifies sim
    ensures MidFarm(sim.Value(), sim.version, s, k, seen + [outcome], Used(sim.version, s, i + 1, sybils))
    ensures BystandersKept(old(sim.Value()), sim.Value(), Party(s))
    ensures receipt == if sim.version.RequiresReceipts() then 1 else 0
    ensures HonestKept(old(sim.Value()), sim.Value())
    ensures FarmRaised(old(sim.Value()), sim.Value(), sybils, RoundPrice(sim.version))
  {
    var from := RingReceipt(sim.version, s, i, sybils);
    receipt := if from.Some? then 1 else 0;
    FarmSeen(sim, s, from, outcome, Party(FIRST_CHALLENGER - 1 + challenges), k, seen, Used(sim.version, s, i, sybils));
    RoundInBlock(old(sim.Value()), sim.Value(), sim.version, s, from, sybils);
  }

  /** One more completion of identity `s`, whose outcome joins those seen. */
  method FarmSeen(sim: Simulator, s: nat, from: Option<Party>, outcome: Outcome, challenger: Party,
                  ghost k: nat, ghost seen: seq<Outcome>, ghost used: set<Party>)
    requires from.Some? <==> sim.version.RequiresReceipts()
    requires from.Some? ==> from.value != Party(s) && from.value !in used
    requires !outcome.Unchallenged? ==>
               challenger.id >= FIRST_CHALLENGER && (sim.version.V05? ==> challenger != Party(s))
    requires MidFarm(sim.Value(), sim.version, s, k, seen, used)
    modifies sim
    ensures MidFarm(sim.Value(), sim.version, s, k, seen + [outcome], used + Offered(from))
    ensures BystandersKept(old(sim.Value()), sim.Value(), Party(s))
    ensures RoundPaid(old(sim.Value()), sim.Value(), Party(s), from)
  {
    FarmOne(sim, Party(s), from, outcome, challenger, |seen|, CountUpheld(seen), used, k * STAKE_PER_POINT_WEI);
    RoundIsMidFarm(old(sim.Value()), sim.Value(), sim.version, s, seen, outcome, challenger, k, used + Offered(from));
  }

  /** Who confirms completion `i` of identity `s`. */
  method RingReceipt(v: Version, s: nat, i: nat, sybils: nat) returns (from: Option<Party>)
    requires s < sybils && (v.RequiresReceipts() ==> i + 1 < sybils)
    ensures from.Some? <==> v.RequiresReceipts()
    ensures from.Some? ==>
              from.value != Party(s) && from.value !in Used(v, s, i, sybils) && InBlock(from.value, 0, sybils)
    ensures Used(v, s, i + 1, sybils) == Used(v, s, i, sybils) + Offered(from)
  {
    from := None;
    if v.RequiresReceipts() && sybils > 1 {
      NeighbourIsNew(s, i, sybils);
      var counterparty := RingNeighbour(s, i, sybils);
      if counterparty != Party(s) {
        from := Some(counterparty);
      }
    }
  }

  lemma RoundInBlock(w: World, w': World, v: Version, s: nat, from: Option<Party>, sybils: nat)
    requires RoundPaid(w, w', Party(s), from) && s < sybils
    requires from.Some? <==> v.RequiresReceipts()
    requires from.Some? ==> InBlock(from.value, 0, sybils)
    ensures HonestKept(w, w') && FarmRaised(w, w', sybils, RoundPrice(v))
  {
    if sybils <= FIRST_CHALLENGER {
      SumCapitalPaid(w, w', 0, sybils, Some(Party(s)), ATTEST_COST, from, RECEIPT_COST);
    }
  }

  /** The state of identity `s` after the completions whose outcomes are listed. */
  ghost predicate MidFarm(w: World, v: Version, s: nat, k: nat, seen: seq<Outcome>, used: set<Party>)
  {
    && Numbered(w)
    && Farmed(Agent(w, Party(s)), v, |seen|, CountUpheld(seen), used)
    && StakeLeft(Agent(w, Party(s)), v, k * STAKE_PER_POINT_WEI, CountUpheld(seen))
  }

  lemma RoundIsMidFarm(w: World, w': World, v: Version, s: nat, seen: seq<Outcome>, outcome: Outcome,
                       challenger: Party, k: nat, used: set<Party>)
    requires RoundDone(w, w', v, Party(s), |seen| + 1, CountUpheld(seen) + (if outcome.Upheld? then 1 else 0), used,
                       k * STAKE_PER_POINT_WEI, if outcome.Unchallenged? then Party(s) else challenger)
    requires !outcome.Unchallenged? ==> challenger.id >= FIRST_CHALLENGER
    ensures MidFarm(w', v, s, k, seen + [outcome], used) && BystandersKept(w, w', Party(s))
  {
    assert (seen + [outcome])[..|seen|] == seen;
    UntouchedAreBystanders(w, w', Party(s), if outcome.Unchallenged? then Party(s) else challenger);
  }

  lemma UntouchedAreBystanders(w: World, w': World, a: Party, challenger: Party)
    requires OthersUntouched(w, w', a, challenger)
    requires challenger == a || challenger.id >= FIRST_CHALLENGER
    ensures BystandersKept(w, w', a)
  {
  }

  /** Identity `s` is finished: `k` completions against these outcomes. */
  ghost predicate Finished(w: World, v: Version, s: nat, k: nat, outcomes: seq<Outcome>)
  {
    exists used :: MidFarm(w, v, s, k, outcomes, used)
  }

  lemma BystanderStaysFinished(w: World, w': World, v: Version, b: nat, k: nat, outcomes: seq<Outcome>, a: Party)
    requires Finished(w, v, b, k, outcomes) && BystandersKept(w, w', a) && Numbered(w')
    requires Party(b) != a && (v.V05? ==> b < FIRST_CHALLENGER)
    ensures Finished(w', v, b, k, outcomes)
  {
    var used :| MidFarm(w, v, b, k, outcomes, used);
    assert SameStanding(Agent(w', Party(b)), Agent(w, Party(b)));
    assert v.V05? ==> SameStake(Agent(w', Party(b)), Agent(w, Party(b)));
    assert MidFarm(w', v, b, k, outcomes, used);
  }

  lemma BystanderStaysReady(w: World, w': World, v: Version, b: nat, a: Party)
    requires Ready(w, v, Party(b)) && BystandersKept(w, w', a)
    requires Party(b) != a && (v.V05? ==> b < FIRST_CHALLENGER)
    ensures Ready(w', v, Party(b))
  {
    assert SameStanding(Agent(w', Party(b)), Agent(w, Party(b)));
    assert v.V05? ==> SameStake(Agent(w', Party(b)), Agent(w, Party(b)));
  }

  /** Identities below `s` finished, the rest untouched. */
  ghost predicate Swept(w: World, v: Version, s: nat, sybils: nat, k: nat, outcomes: seq<seq<Outcome>>)
    requires s <= sybils == |outcomes|
  {
    && Numbered(w)
    && (forall b: nat :: b < s ==> Finished(w, v, b, k, outcomes[b]))
    && (forall b: nat :: s <= b < sybils ==> Ready(w, v, Party(b)))
  }

  lemma SweepStep(w: World, w': World, v: Version, s: nat, sybils: nat, k: nat, outcomes: seq<seq<Outcome>>)
    requires s < sybils == |outcomes| && (v.V05? ==> sybils <= FIRST_CHALLENGER)
    requires Swept(w, v, s, sybils, k, outcomes)
    requires BystandersKept(w, w', Party(s)) && Numbered(w') && Finished(w', v, s, k, outcomes[s])
    ensures Swept(w', v, s + 1, sybils, k, outcomes)
  {
    forall b: nat | b <= s
      ensures Finished(w', v, b, k, outcomes[b])
    {
      if b < s {
        BystanderStaysFinished(w, w', v, b, k, outcomes[b], Party(s));
      }
    }
    forall b: nat | s + 1 <= b < sybils
      ensures Ready(w', v, Party(b))
    {
      BystanderStaysReady(w, w', v, b, Party(s));
    }
  }

  lemma FinishedScores(w: World, v: Version, params: Params, s: nat, k: nat, outcomes: seq<Outcome>)
    requires Finished(w, v, s, k, outcomes) && |outcomes| == k
    ensures Score(w, v, params, Party(s), 0) == FarmedScore(v, k, CountUpheld(outcomes))
    ensures v.V05? ==> Agent(w, Party(s)).lockedWei
                         == FarmedScore(v, k, CountUpheld(outcomes)) * STAKE_PER_POINT_WEI
  {
    var used :| MidFarm(w, v, s, k, outcomes, used);
    FarmedScores(w, v, params, Party(s), k, CountUpheld(outcomes), used);
  }

  /** The whole simulation. `outcomes[s][i]` is what the watchers do with
      completion `i` of identity `s`; every stream of outcomes is allowed. */
  method RunSybilFarming(version: Version, params: Params, sybils: nat, attestsPerSybil: nat,
                         outcomes: seq<seq<Outcome>>)
    returns (r: SybilResult)
    requires |outcomes| == sybils && forall s :: 0 <= s < sybils ==> |outcomes[s]| == attestsPerSybil
    requires version.RequiresReceipts() ==> attestsPerSybil < sybils
    requires version.V05? ==> sybils <= FIRST_CHALLENGER
    ensures r.totalScore == TotalFarmed(version, attestsPerSybil, outcomes)
    ensures r.honestScore == attestsPerSybil
    ensures r.totalReceipts == if version.RequiresReceipts() then sybils * attestsPerSybil else 0
    ensures r.challenges == TotalChallenged(outcomes)
    ensures r.disputes == TotalUpheld(outcomes)
    ensures version.V05? ==> r.lockedWei == r.totalScore * STAKE_PER_POINT_WEI
    ensures sybils <= FIRST_CHALLENGER ==>
              r.spentWei + r.lockedWei == sybils * (attestsPerSybil * PointPrice(version))
    ensures r.costPerPointWei == ((r.spentWei + r.lockedWei) as real) / (Max(1, r.totalScore) as real)
    ensures r.honestCostPerPointWei
         == ((attestsPerSybil * PointPrice(version)) as real) / (Max(1, attestsPerSybil) as real)
    ensures r.totalScore == 0 ==> r.efficiencyRatio == 0.0
    ensures sybils <= FIRST_CHALLENGER && sybils >= 1 && attestsPerSybil >= 1 ==>
              r.efficiencyRatio == (r.totalScore as real) / ((sybils * attestsPerSybil) as real)
  {
    var sim := new Simulator(version, params);
    var receipts, challenges, disputes := FarmBothArms(sim, sybils, attestsPerSybil, outcomes);
    r := Report(sim, sybils, attestsPerSybil, receipts, challenges, disputes, outcomes);
    if sybils >= 1 && attestsPerSybil >= 1 {
      EfficiencyIsSurvival(PointPrice(version), sybils, attestsPerSybil, r.totalScore);
    }
  }

  /** Everything the figures are taken from. */
  ghost predicate BothArmsFarmed(w: World, v: Version, params: Params, sybils: nat, k: nat, outcomes: seq<seq<Outcome>>)
  {
    && Earned(w, v, params, k, outcomes)
    && Score(w, v, params, Party(-1), 0) == k
    && HonestCapital(w, v, k) == k * PointPrice(v)
    && (sybils <= FIRST_CHALLENGER ==> SumCapital(w, 0, sybils) == sybils * (k * PointPrice(v)))
    && (v.V05? ==> SumLocked(w, sybils) == TotalFarmed(v, k, outcomes) * STAKE_PER_POINT_WEI)
  }

  /** The honest arm, then the attacker arm. */
  method FarmBothArms(sim: Simulator, sybils: nat, k: nat, outcomes: seq<seq<Outcome>>)
    returns (receipts: nat, challenges: nat, disputes: nat)
    requires sim.Value() == EMPTY_WORLD
    requires |outcomes| == sybils && forall s :: 0 <= s < sybils ==> |outcomes[s]| == k
    requires sim.version.RequiresReceipts() ==> k < sybils
    requires sim.version.V05? ==> sybils <= FIRST_CHALLENGER
    modifies sim
    ensures BothArmsFarmed(sim.Value(), sim.version, sim.params, sybils, k, outcomes)
    ensures receipts == if sim.version.RequiresReceipts() then sybils * k else 0
    ensures challenges == TotalChallenged(outcomes)
    ensures disputes == TotalUpheld(outcomes)
  {
    FarmHonest(sim, k);
    ghost var prepared := sim.Value();
    EveryoneReady(sim.Value(), sim.version, sybils, k, outcomes);
    receipts, challenges, disputes := FarmEveryone(sim, sybils, k, outcomes);
    FarmReceiptsIs(sim.version, k, sybils);
    BothArmsDone(prepared, sim.Value(), sim.version, sim.params, sybils, k, outcomes);
  }

  lemma BothArmsDone(w: World, w': World, v: Version, params: Params, sybils: nat, k: nat, outcomes: seq<seq<Outcome>>)
    requires |outcomes| == sybils && forall s :: 0 <= s < sybils ==> |outcomes[s]| == k
    requires AttackersKept(EMPTY_WORLD, w) && HonestRaised(EMPTY_WORLD, w, v, k, Outlay(v, k, k))
    requires HonestKept(w, w') && FarmRaised(w, w', sybils, FarmOutlay(v, k, sybils))
    requires Swept(w', v, sybils, sybils, k, outcomes) && HonestDone(w', v, k)
    ensures BothArmsFarmed(w', v, params, sybils, k, outcomes)
  {
    CapitalAtTheEnd(w, w', v, sybils, k);
    HonestScores(w', v, params, k);
    EveryoneEarns(w', v, params, k, outcomes);
    if v.V05? {
      LockedBacksScores(w', v, params, k, outcomes);
    }
  }

  /** The figures at the end. */
  method Report(sim: Simulator, sybils: nat, k: nat, receipts: nat, challenges: nat, disputes: nat,
                ghost outcomes: seq<seq<Outcome>>) returns (r: SybilResult)
    requires |outcomes| == sybils && Earned(sim.Value(), sim.version, sim.params, k, outcomes)
    modifies sim
    ensures r.totalScore == TotalFarmed(sim.version, k, outcomes)
    ensures r.honestScore == Score(old(sim.Value()), sim.version, sim.params, Party(-1), 0)
    ensures r.totalReceipts == receipts && r.challenges == challenges && r.disputes == disputes
    ensures r.lockedWei == SumLocked(old(sim.Value()), sybils)
    ensures r.spentWei + r.lockedWei == SumCapital(old(sim.Value()), 0, sybils)
    ensures r.costPerPointWei == PerPoint(r.spentWei + r.lockedWei, r.totalScore)
    ensures r.honestCostPerPointWei == PerPoint(HonestCapital(old(sim.Value()), sim.version, k), r.honestScore)
    ensures r.efficiencyRatio == Efficiency(r.totalScore, r.costPerPointWei, r.honestCostPerPointWei)
  {
    ghost var w := sim.Value();
    var totalScore := TallyScores(sim, sybils, k, outcomes);
    SameBooks(w, sim.Value(), sim.version, sim.params, sybils, k);
    var spentWei, lockedWei := TallyCapital(sim, sybils);
    var honestScore, honestCapital := TallyHonest(sim, k);
    var costPerPointWei := PerPoint(spentWei + lockedWei, totalScore);
    var honestCostPerPointWei := PerPoint(honestCapital, honestScore);
    r := SybilResult(totalScore, honestScore, receipts, spentWei, lockedWei, costPerPointWei, honestCostPerPointWei,
                     Efficiency(totalScore, costPerPointWei, honestCostPerPointWei), challenges, disputes);
  }

  lemma SameRecordsTwice(w: World, w1: World, w2: World)
    requires SameRecords(w, w1) && SameRecords(w1, w2)
    ensures SameRecords(w, w2)
  {
    forall b
      ensures Agent(w2, b) == Agent(w, b)
    {
      assert Agent(w1, b) == Agent(w, b) && Agent(w2, b) == Agent(w1, b);
    }
  }

  lemma {:induction false} SameLocked(w: World, w': World, n: nat)
    requires SameRecords(w, w')
    ensures SumLocked(w', n) == SumLocked(w, n)
  {
    if n > 0 {
      SameLocked(w, w', n - 1);
      assert Agent(w', Party(n - 1)) == Agent(w, Party(n - 1));
    }
  }

  /** Figures depend on the records alone. */
  lemma SameBooks(w: World, w': World, v: Version, params: Params, sybils: nat, k: nat)
    requires SameRecords(w, w')
    ensures SumLocked(w', sybils) == SumLocked(w, sybils)
    ensures SumCapital(w', 0, sybils) == SumCapital(w, 0, sybils)
    ensures HonestCapital(w', v, k) == HonestCapital(w, v, k)
    ensures Score(w', v, params, Party(-1), 0) == Score(w, v, params, Party(-1), 0)
  {
    SameLocked(w, w', sybils);
    SameTotals(w, w', 0, sybils);
    SameTotals(w, w', -999 - k, k);
    SameScore(w, w', v, params, Party(-1), 0);
    assert Agent(w', Party(-1)) == Agent(w, Party(-1));
  }

  /** Both arms' capital after both have run. */
  lemma CapitalAtTheEnd(w: World, w': World, v: Version, sybils: nat, k: nat)
    requires AttackersKept(EMPTY_WORLD, w) && HonestRaised(EMPTY_WORLD, w, v, k, Outlay(v, k, k))
    requires HonestKept(w, w') && FarmRaised(w, w', sybils, FarmOutlay(v, k, sybils))
    ensures HonestCapital(w', v, k) == k * PointPrice(v)
    ensures sybils <= FIRST_CHALLENGER ==> SumCapital(w', 0, sybils) == sybils * (k * PointPrice(v))
  {
    NobodyInvested(0, sybils);
    NobodyInvested(-999 - k, k);
    HonestCapitalKept(w, w', v, k);
    OutlayIsPrice(v, k);
    FarmOutlayIs(v, k, sybils);
    if sybils <= FIRST_CHALLENGER {
      SumCapitalPaid(EMPTY_WORLD, w, 0, sybils, None, 0, None, 0);
    }
  }

  /** What the honest agent scores, and what it and its counterparties put up. */
  method TallyHonest(sim: Simulator, k: nat) returns (score: int, capital: int)
    modifies sim
    ensures score == Score(old(sim.Value()), sim.version, sim.params, Party(-1), 0)
    ensures capital == HonestCapital(old(sim.Value()), sim.version, k)
  {
    TouchKeepsRecords(sim.Value(), Party(-1));
    SameBooks(sim.Value(), Ensure(sim.Value(), Party(-1)), sim.version, sim.params, 0, k);
    score := sim.ScoreOf(Party(-1), 0);
    capital := Capital(sim.Value(), Party(-1));
    if sim.version.RequiresReceipts() {
      var others := 0;
      for i := 0 to k
        invariant others == SumCapital(sim.Value(), -999 - k, i)
      {
        others := others + Capital(sim.Value(), Party(-999 - k + i));
      }
      capital := capital + others;
    }
  }

  function PerPoint(capital: int, points: int): real
  {
    (capital as real) / (Max(1, points) as real)
  }

  /** Honest price over attacker price, zero where nothing was farmed. */
  function Efficiency(totalScore: int, costPerPointWei: real, honestCostPerPointWei: real): real
  {
    if totalScore == 0 || costPerPointWei == 0.0 then 0.0 else honestCostPerPointWei / costPerPointWei
  }

  /** With the same price per completion on both sides, the efficiency is the share of farmed points that survive. */
  lemma EfficiencyIsSurvival(price: nat, sybils: nat, k: nat, totalScore: int)
    requires price > 0 && sybils >= 1 && k >= 1 && totalScore >= 0
    ensures Efficiency(totalScore, PerPoint(sybils * (k * price), totalScore), PerPoint(k * price, k))
         == (totalScore as real) / ((sybils * k) as real)
  {
    HonestPrice(price, k);
    Regroup(sybils, k, price);
    PricesGiveSurvival(totalScore, sybils * (k * price), (sybils * k) as real, price as real);
  }

  /** Paying `p` for each of `m` points and keeping some of them. */
  lemma PricesGiveSurvival(totalScore: int, cost: int, m: real, p: real)
    requires totalScore >= 0 && m > 0.0 && p > 0.0 && cost as real == m * p
    ensures Efficiency(totalScore, PerPoint(cost, totalScore), p) == (totalScore as real) / m
  {
    if totalScore > 0 {
      SwapRatio(m, p, totalScore as real);
    }
  }

  lemma HonestPrice(price: nat, k: nat)
    requires k >= 1
    ensures PerPoint(k * price, k) == price as real
  {
    assert (k * price) as real == (k as real) * (price as real);
  }

  lemma Regroup(sybils: nat, k: nat, price: nat)
    requires sybils >= 1 && k >= 1
    ensures (sybils * (k * price)) as real == ((sybils * k) as real) * (price as real)
    ensures (sybils * k) as real > 0.0
  {
    assert sybils * (k * price) == (sybils * k) * price;
    assert sybils * k >= 1;
  }

  lemma SwapRatio(m: real, p: real, t: real)
    requires m > 0.0 && p > 0.0 && t > 0.0
    ensures (m * p) / t > 0.0
    ensures p / ((m * p) / t) == t / m
  {
    var q := (m * p) / t;
    assert q * t == m * p;
    assert q > 0.0;
    assert (t / m) * q == p by {
      assert (t / m) * m == t;
    }
  }

  /** Farming never beats honest work, and matches it only where no dispute was upheld. */
  lemma {:induction false} FarmingNeverCheaper(v: Version, k: nat, outcomes: seq<seq<Outcome>>)
    requires k >= 1 && forall s :: 0 <= s < |outcomes| ==> |outcomes[s]| == k
    ensures TotalFarmed(v, k, outcomes) <= |outcomes| * k
    ensures TotalFarmed(v, k, outcomes) == |outcomes| * k <==> TotalUpheld(outcomes) == 0
  {
    if outcomes != [] {
      var n := |outcomes| - 1;
      FarmingNeverCheaper(v, k, outcomes[..n]);
      OneMore(n, k);
    }
  }

  lemma EveryoneReady(w: World, v: Version, sybils: nat, k: nat, outcomes: seq<seq<Outcome>>)
    requires |outcomes| == sybils && (v.V05? ==> sybils <= FIRST_CHALLENGER)
    requires Numbered(w) && BystandersKept(EMPTY_WORLD, w, Party(-1))
    ensures Swept(w, v, 0, sybils, k, outcomes)
  {
    forall b: nat | b < sybils
      ensures Ready(w, v, Party(b))
    {
      assert Ready(EMPTY_WORLD, v, Party(b));
      BystanderStaysReady(EMPTY_WORLD, w, v, b, Party(-1));
    }
  }

  /** Receipts issued by the first `s` identities' neighbours. */
  function FarmReceipts(v: Version, k: nat, s: nat): nat
  {
    if s == 0 then 0 else FarmReceipts(v, k, s - 1) + (if v.RequiresReceipts() then k else 0)
  }

  lemma {:induction false} FarmReceiptsIs(v: Version, k: nat, s: nat)
    ensures FarmReceipts(v, k, s) == if v.RequiresReceipts() then s * k else 0
  {
    if s > 0 {
      FarmReceiptsIs(v, k, s - 1);
      OneMore(s - 1, k);
    }
  }

  /** The attacker arm: every identity in turn. */
  method FarmEveryone(sim: Simulator, sybils: nat, k: nat, outcomes: seq<seq<Outcome>>)
    returns (receipts: nat, challenges: nat, disputes: nat)
    requires |outcomes| == sybils && forall s :: 0 <= s < sybils ==> |outcomes[s]| == k
    requires sim.version.RequiresReceipts() ==> k < sybils
    requires sim.version.V05? ==> sybils <= FIRST_CHALLENGER
    requires Swept(sim.Value(), sim.version, 0, sybils, k, outcomes)
    requires HonestDone(sim.Value(), sim.version, k)
    modifies sim
    ensures Swept(sim.Value(), sim.version, sybils, sybils, k, outcomes)
    ensures HonestDone(sim.Value(), sim.version, k)
    ensures receipts == FarmReceipts(sim.version, k, sybils)
    ensures challenges == TotalChallenged(outcomes)
    ensures disputes == TotalUpheld(outcomes)
    ensures HonestKept(old(sim.Value()), sim.Value())
    ensures FarmRaised(old(sim.Value()), sim.Value(), sybils, FarmOutlay(sim.version, k, sybils))
  {
    receipts, challenges, disputes := 0, 0, 0;
    for s := 0 to sybils
      invariant FarmMid(old(sim.Value()), sim.Value(), sim.version, s, sybils, k, outcomes)
      invariant receipts == FarmReceipts(sim.version, k, s)
      invariant challenges == TotalChallenged(outcomes[..s])
      invariant disputes == TotalUpheld(outcomes[..s])
    {
      OneMoreIdentity(outcomes, s);
      var newReceipts, newDisputes;
      newReceipts, challenges, newDisputes := FarmTurn(sim, old(sim.Value()), s, sybils, k, outcomes, challenges);
      receipts := receipts + newReceipts;
      disputes := disputes + newDisputes;
    }
    assert outcomes[..sybils] == outcomes;
  }

  lemma OneMoreIdentity(outcomes: seq<seq<Outcome>>, s: nat)
    requires s < |outcomes|
    ensures TotalChallenged(outcomes[..s + 1]) == TotalChallenged(outcomes[..s]) + CountChallenged(outcomes[s])
    ensures TotalUpheld(outcomes[..s + 1]) == TotalUpheld(outcomes[..s]) + CountUpheld(outcomes[s])
  {
    assert outcomes[..s + 1][..s] == outcomes[..s];
  }

  /** Identity `s`'s turn. */
  method FarmTurn(sim: Simulator, ghost w0: World, s: nat, sybils: nat, k: nat, outcomes: seq<seq<Outcome>>,
                  challenges: nat)
    returns (receipts: nat, challenges': nat, disputes: nat)
    requires s < sybils == |outcomes| && |outcomes[s]| == k
    requires sim.version.RequiresReceipts() ==> k < sybils
    requires sim.version.V05? ==> sybils <= FIRST_CHALLENGER
    requires FarmMid(w0, sim.Value(), sim.version, s, sybils, k, outcomes)
    modifies sim
    ensures FarmMid(w0, sim.Value(), sim.version, s + 1, sybils, k, outcomes)
    ensures receipts == if sim.version.RequiresReceipts() then k else 0
    ensures challenges' == challenges + CountChallenged(outcomes[s])
    ensures disputes == CountUpheld(outcomes[s])
  {
    ghost var before := sim.Value();
    receipts, challenges', disputes := FarmIdentity(sim, s, sybils, k, outcomes[s], challenges);
    FarmMidStep(w0, before, sim.Value(), sim.version, s, sybils, k, outcomes);
  }

  /** The attacker arm `s` identities in, begun in world `w0`. */
  ghost predicate FarmMid(w0: World, w: World, v: Version, s: nat, sybils: nat, k: nat, outcomes: seq<seq<Outcome>>)
    requires s <= sybils == |outcomes|
  {
    && Swept(w, v, s, sybils, k, outcomes) && HonestDone(w, v, k)
    && HonestKept(w0, w) && FarmRaised(w0, w, sybils, FarmOutlay(v, k, s))
  }

  lemma FarmMidStep(w0: World, w: World, w': World, v: Version, s: nat, sybils: nat, k: nat,
                    outcomes: seq<seq<Outcome>>)
    requires s < sybils == |outcomes| && (v.V05? ==> sybils <= FIRST_CHALLENGER)
    requires FarmMid(w0, w, v, s, sybils, k, outcomes)
    requires BystandersKept(w, w', Party(s)) && Numbered(w') && Finished(w', v, s, k, outcomes[s])
    requires HonestKept(w, w') && FarmRaised(w, w', sybils, Outlay(v, k, k))
    ensures FarmMid(w0, w', v, s + 1, sybils, k, outcomes)
  {
    SweepStep(w, w', v, s, sybils, k, outcomes);
    HonestStaysDone(w, w', v, k, Party(s));
    HonestKeptTwice(w0, w, w');
    FarmRaisedTwice(w0, w, w', sybils, FarmOutlay(v, k, s), Outlay(v, k, k));
  }

  /** Identity `s` scores what the closed form says of its outcomes. */
  ghost predicate EarnedOne(w: World, v: Version, params: Params, k: nat, outcomes: seq<Outcome>, s: nat)
  {
    Score(w, v, params, Party(s), 0) == FarmedScore(v, k, CountUpheld(outcomes))
  }

  ghost predicate Earned(w: World, v: Version, params: Params, k: nat, outcomes: seq<seq<Outcome>>)
  {
    forall s: nat :: s < |outcomes| ==> EarnedOne(w, v, params, k, outcomes[s], s)
  }

  lemma EveryoneEarns(w: World, v: Version, params: Params, k: nat, outcomes: seq<seq<Outcome>>)
    requires forall s :: 0 <= s < |outcomes| ==> |outcomes[s]| == k
    requires Swept(w, v, |outcomes|, |outcomes|, k, outcomes)
    ensures Earned(w, v, params, k, outcomes)
  {
    forall s: nat | s < |outcomes|
      ensures EarnedOne(w, v, params, k, outcomes[s], s)
    {
      FinishedScores(w, v, params, s, k, outcomes[s]);
    }
  }

  method OneScore(sim: Simulator, s: nat, ghost w: World, ghost k: nat, ghost outcomes: seq<Outcome>)
    returns (score: int)
    requires SameRecords(w, sim.Value()) && EarnedOne(w, sim.version, sim.params, k, outcomes, s)
    modifies sim
    ensures SameRecords(w, sim.Value()) && score == FarmedScore(sim.version, k, CountUpheld(outcomes))
  {
    SameScore(w, sim.Value(), sim.version, sim.params, Party(s), 0);
    TouchKeepsRecords(sim.Value(), Party(s));
    SameRecordsTwice(w, sim.Value(), Ensure(sim.Value(), Party(s)));
    score := sim.ScoreOf(Party(s), 0);
  }

  /** Add up what the identities score. */
  method TallyScores(sim: Simulator, sybils: nat, ghost k: nat, ghost outcomes: seq<seq<Outcome>>)
    returns (totalScore: int)
    requires |outcomes| == sybils && Earned(sim.Value(), sim.version, sim.params, k, outcomes)
    modifies sim
    ensures SameRecords(old(sim.Value()), sim.Value())
    ensures totalScore == TotalFarmed(sim.version, k, outcomes)
  {
    totalScore := 0;
    ghost var w := sim.Value();
    for s := 0 to sybils
      invariant SameRecords(w, sim.Value())
      invariant totalScore == TotalFarmed(sim.version, k, outcomes[..s])
    {
      assert outcomes[..s + 1][..s] == outcomes[..s];
      assert EarnedOne(w, sim.version, sim.params, k, outcomes[s], s);
      var score := OneScore(sim, s, w, k, outcomes[s]);
      totalScore := totalScore + score;
    }
    assert outcomes[..sybils] == outcomes;
  }

  /** Add up what the identities have spent and what they still hold locked. */
  method TallyCapital(sim: Simulator, sybils: nat) returns (spentWei: int, lockedWei: int)
    ensures lockedWei == SumLocked(sim.Value(), sybils)
    ensures spentWei + lockedWei == SumCapital(sim.Value(), 0, sybils)
  {
    spentWei, lockedWei := 0, 0;
    for s := 0 to sybils
      invariant lockedWei == SumLocked(sim.Value(), s)
      invariant spentWei + lockedWei == SumCapital(sim.Value(), 0, s)
    {
      spentWei := spentWei + Agent(sim.Value(), Party(s)).spentWei;
      lockedWei := lockedWei + Agent(sim.Value(), Party(s)).lockedWei;
    }
  }

  function SumLocked(w: World, n: nat): int
  {
    if n == 0 then 0 else SumLocked(w, n - 1) + Agent(w, Party(n - 1)).lockedWei
  }

  /** Under v0.5 what is left locked is the stake behind the points that survived. */
  lemma LockedBacksScores(w: World, v: Version, params: Params, k: nat, outcomes: seq<seq<Outcome>>)
    requires v.V05? && forall s :: 0 <= s < |outcomes| ==> |outcomes[s]| == k
    requires Swept(w, v, |outcomes|, |outcomes|, k, outcomes)
    ensures SumLocked(w, |outcomes|) == TotalFarmed(v, k, outcomes) * STAKE_PER_POINT_WEI
  {
    forall s: nat | s < |outcomes|
      ensures Backed(w, v, k, outcomes[s], s)
    {
      FinishedScores(w, v, params, s, k, outcomes[s]);
    }
    LockedAddsUp(w, v, k, outcomes);
  }

  predicate Backed(w: World, v: Version, k: nat, outcomes: seq<Outcome>, s: nat)
  {
    Agent(w, Party(s)).lockedWei == FarmedScore(v, k, CountUpheld(outcomes)) * STAKE_PER_POINT_WEI
  }

  lemma {:induction false} LockedAddsUp(w: World, v: Version, k: nat, outcomes: seq<seq<Outcome>>)
    requires forall s: nat :: s < |outcomes| ==> Backed(w, v, k, outcomes[s], s)
    ensures SumLocked(w, |outcomes|) == TotalFarmed(v, k, outcomes) * STAKE_PER_POINT_WEI
  {
    if outcomes != [] {
      var n := |outcomes| - 1;
      LockedAddsUp(w, v, k, outcomes[..n]);
      assert Backed(w, v, k, outcomes[n], n);
    }
  }

  ghost predicate HonestDone(w: World, v: Version, k: nat)
  {
    (exists used :: Farmed(Agent(w, Party(-1)), v, k, 0, used))
    && StakeLeft(Agent(w, Party(-1)), v, k * STAKE_PER_POINT_WEI, 0)
  }

  lemma HonestStaysDone(w: World, w': World, v: Version, k: nat, a: Party)
    requires HonestDone(w, v, k) && BystandersKept(w, w', a) && a != Party(-1)
    ensures HonestDone(w', v, k)
  {
    var used :| Farmed(Agent(w, Party(-1)), v, k, 0, used);
    assert SameStanding(Agent(w', Party(-1)), Agent(w, Party(-1)));
    assert SameStake(Agent(w', Party(-1)), Agent(w, Party(-1)));
    assert Farmed(Agent(w', Party(-1)), v, k, 0, used);
  }

  lemma HonestScores(w: World, v: Version, params: Params, k: nat)
    requires HonestDone(w, v, k)
    ensures Score(w, v, params, Party(-1), 0) == k
  {
    var used :| Farmed(Agent(w, Party(-1)), v, k, 0, used);
    FarmedScores(w, v, params, Party(-1), k, 0, used);
  }
}
