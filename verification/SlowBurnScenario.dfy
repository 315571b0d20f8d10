/** Slow burn then harvest: an attacker accumulates just enough score, day by
    day, for one high-value contract. The simulated day loop is proved equal to
    a closed form, and the score after the fraud is discovered to be zero. */
module SlowBurnScenario {

  import opened Arithmetic
  import opened Parties
  import opened Decay
  import opened Mechanism
  import opened Spending

  const DAY: int := 24 * 60 * 60

  datatype SlowBurnConfig = SlowBurnConfig(targetScore: int, attestsPerDay: nat, horizonDays: nat, accomplices: nat)

  datatype SlowBurnResult = SlowBurnResult(daysToThreshold: Option<nat>, scoreAtHarvest: int, spentWei: int,
                                           slashableWei: int, scoreAfterSlash: int)

  const ATTACKER := Party(0)

  // ---- the closed form ----

  /** Accomplices whose receipts the version uses. */
  function Helpers(v: Version, config: SlowBurnConfig): nat
  {
    if v.RequiresReceipts() then config.accomplices else 0
  }

  /** The attacker's score on the day its `n`-th completion lands. */
  function BurnScore(v: Version, params: Params, config: SlowBurnConfig, n: nat): int
  {
    match v
    case SelfAttest => n
    case TwoSided => if config.accomplices > 0 then n else 0
    case V03 => Min(n, config.accomplices)
    case V05 => Min(Min(n, config.accomplices), LockedStake(v, params, config) / STAKE_PER_POINT_WEI)
  }

  /** The capability bond, plus the stake v0.5 asks for the target. */
  function LockedStake(v: Version, params: Params, config: SlowBurnConfig): nat
  {
    params.capabilityBondWei + (if v.V05? then Max(0, config.targetScore) * STAKE_PER_POINT_WEI else 0)
  }

  function BurnSpent(v: Version, config: SlowBurnConfig, n: nat): nat
  {
    REGISTER_COST + n * ATTEST_COST + (if Helpers(v, config) > 0 then n * RECEIPT_COST else 0)
  }

  /** Enough helpers for the target under this version's rule, and some work
      each day; a target of zero or less asks for neither. */
  predicate Reachable(v: Version, config: SlowBurnConfig)
  {
    config.targetScore <= 0 ||
    (config.attestsPerDay >= 1 &&
     match v
     case SelfAttest => true
     case TwoSided => config.accomplices >= 1
     case V03 => config.accomplices >= config.targetScore
     case V05 => config.accomplices >= config.targetScore)
  }

  /** The day the target is met, given enough helpers and time. */
  function FirstDay(v: Version, config: SlowBurnConfig): (day: nat)
    requires Reachable(v, config)
    ensures day >= 1
  {
    if config.targetScore <= 0 then 1
    else
      CeilDivMeets(config.targetScore, config.attestsPerDay, 0);
      CeilDiv(config.targetScore, config.attestsPerDay)
  }

  function HarvestDay(v: Version, config: SlowBurnConfig): Option<nat>
  {
    if Reachable(v, config) && FirstDay(v, config) <= config.horizonDays
    then Some(FirstDay(v, config)) else None
  }

  lemma CeilDivMeets(a: nat, b: nat, d: nat)
    requires b > 0
    ensures d * b >= a <==> d >= CeilDiv(a, b)
  {
    var c := CeilDiv(a, b);
    QuotientRemainder(a + b - 1, b);
    ScaleIf(c, d, b);
    ScaleIf(d + 1, c, b);
    assert b * (d + 1) == d * b + b && b * c == c * b;
  }

  /** A day's score meets the target exactly when the version is reachable and
      enough days have gone by; stake never gets in v0.5's way. */
  lemma TargetMet(v: Version, params: Params, config: SlowBurnConfig, day: nat)
    requires day >= 1
    ensures BurnScore(v, params, config, day * config.attestsPerDay) >= config.targetScore
       <==> Reachable(v, config) && day >= FirstDay(v, config)
  {
    if config.targetScore > 0 && config.attestsPerDay > 0 {
      CeilDivMeets(config.targetScore, config.attestsPerDay, day);
      if v.V05? {
        QuotientMonotone(config.targetScore * STAKE_PER_POINT_WEI, LockedStake(v, params, config), STAKE_PER_POINT_WEI);
      }
    } else if config.targetScore > 0 {
      assert day * config.attestsPerDay == 0;
    }
  }

  // ---- the simulated state ----

  function FirstAccomplices(n: nat): set<Party>
  {
    set i: nat | i < n :: Accomplice(i)
  }

  function Accomplice(i: nat): Party
  {
    Party(1 + i)
  }

  lemma {:induction false} CountAccomplices(n: nat)
    ensures |FirstAccomplices(n)| == n
  {
    if n > 0 {
      CountAccomplices(n - 1);
      assert FirstAccomplices(n) == FirstAccomplices(n - 1) + {Accomplice(n - 1)};
    }
  }

  /** The attacker after `n` completions: round-robin over the helpers has
      reached the first min(n, helpers) of them. */
  ghost predicate Burned(r: AgentState, v: Version, params: Params, config: SlowBurnConfig, n: nat)
  {
    var helpers := Helpers(v, config);
    && r.completions == n && r.disputes == 0
    && r.lockedWei == LockedStake(v, params, config)
    && r.spentWei == REGISTER_COST + n * ATTEST_COST
    && r.raters == r.confirmations.Keys == FirstAccomplices(Min(n, helpers))
    && SumMap(r.confirmations) == if helpers > 0 then n else 0
  }

  ghost predicate Burning(w: World, v: Version, params: Params, config: SlowBurnConfig, n: nat)
  {
    && Burned(Agent(w, ATTACKER), v, params, config, n)
    && SumSpent(w, 1, Helpers(v, config)) == if Helpers(v, config) > 0 then n * RECEIPT_COST else 0
  }

  /** Looking an account up changes nothing that matters here. */
  lemma TouchedStaysBurning(w: World, p: Party, v: Version, params: Params, config: SlowBurnConfig, n: nat)
    requires Burning(w, v, params, config, n)
    ensures Burning(Ensure(w, p), v, params, config, n)
    ensures Agent(Ensure(w, p), ATTACKER) == Agent(w, ATTACKER)
  {
    TouchKeepsRecords(w, p);
    SameTotals(w, Ensure(w, p), 1, Helpers(v, config));
  }

  lemma RoundRobin(n: nat, helpers: nat)
    requires helpers > 0
    ensures FirstAccomplices(Min(n, helpers)) + {Accomplice(n % helpers)} == FirstAccomplices(Min(n + 1, helpers))
  {
    if n < helpers {
      assert n % helpers == n;
      assert Accomplice(n) in FirstAccomplices(n + 1);
    } else {
      assert Accomplice(n % helpers) in FirstAccomplices(helpers);
    }
  }

  lemma AttestBurns(w: World, v: Version, params: Params, config: SlowBurnConfig, n: nat, now: int)
    requires Burning(w, v, params, config, n) && Helpers(v, config) == 0
    ensures Burning(Submit(w, ATTACKER, now), v, params, config, n + 1)
  {
    assert FirstAccomplices(0) == {};
  }

  /** The attacker's own record through an attestation and a receipt. */
  lemma ReceiptBurnsRecord(r: AgentState, r': AgentState, v: Version, params: Params, config: SlowBurnConfig, n: nat)
    requires Burned(r, v, params, config, n) && Helpers(v, config) > 0
    requires r'.completions == r.completions + 1 && r'.disputes == r.disputes && r'.lockedWei == r.lockedWei
    requires r'.spentWei == r.spentWei + ATTEST_COST
    requires var from := Accomplice(n % Helpers(v, config));
      && r'.confirmations == r.confirmations[from := Times(r.confirmations, from) + 1]
      && r'.raters == r.raters + {from}
    ensures Burned(r', v, params, config, n + 1)
  {
    var from := Accomplice(n % Helpers(v, config));
    SumUpdate(r.confirmations, from, Times(r.confirmations, from) + 1);
    RoundRobin(n, Helpers(v, config));
    OneMore(n, ATTEST_COST);
    assert r'.confirmations.Keys == r.confirmations.Keys + {from};
  }

  /** A fresh completion takes the next receipt, whatever the protocol version. */
  lemma ReceiptLands(w: World, v: Version, from: Party, now: int)
    requires from != ATTACKER
    ensures
      var w2 := GiveReceipt(Submit(w, ATTACKER, now), v, from, ATTACKER);
      var r, r' := Agent(w, ATTACKER), Agent(w2, ATTACKER);
      && r'.completions == r.completions + 1 && r'.disputes == r.disputes && r'.lockedWei == r.lockedWei
      && r'.spentWei == r.spentWei + ATTEST_COST
      && r'.confirmations == r.confirmations[from := Times(r.confirmations, from) + 1]
      && r'.raters == r.raters + {from}
      && Agent(w2, from).spentWei == Agent(w, from).spentWei + RECEIPT_COST
      && forall b :: b != ATTACKER && b != from ==> Agent(w2, b).spentWei == Agent(w, b).spentWei
  {
    var w1 := Submit(w, ATTACKER, now);
    assert w1.completions[|w.completions|] == Completion(w.nextCompletionId, ATTACKER, now, false, false, None, None);
    assert LatestOpen(w1.completions, ATTACKER) == Some(|w.completions|);
  }

  lemma HelperPays(w: World, w2: World, helpers: nat, from: Party)
    requires InBlock(from, 1, helpers)
    requires Agent(w2, from).spentWei == Agent(w, from).spentWei + RECEIPT_COST
    requires forall b :: b != ATTACKER && b != from ==> Agent(w2, b).spentWei == Agent(w, b).spentWei
    ensures SumSpent(w2, 1, helpers) == SumSpent(w, 1, helpers) + RECEIPT_COST
  {
    SumSpentCharged(w, w2, 1, helpers, from, RECEIPT_COST);
  }

  /** One attestation and the next accomplice's receipt. */
  lemma ReceiptBurns(w: World, v: Version, params: Params, config: SlowBurnConfig, n: nat, now: int)
    requires Burning(w, v, params, config, n) && Helpers(v, config) > 0
    ensures Burning(GiveReceipt(Submit(w, ATTACKER, now), v, Accomplice(n % Helpers(v, config)), ATTACKER),
                    v, params, config, n + 1)
  {
    var from := Accomplice(n % Helpers(v, config));
    assert from != ATTACKER;
    ReceiptLands(w, v, from, now);
    var w2 := GiveReceipt(Submit(w, ATTACKER, now), v, from, ATTACKER);
    ReceiptBurnsRecord(Agent(w, ATTACKER), Agent(w2, ATTACKER), v, params, config, n);
    HelperPays(w, w2, Helpers(v, config), from);
    OneMore(n, RECEIPT_COST);
  }

  /** What the day's score call returns; nothing has decayed since today's attestation. */
  lemma BurnedScores(w: World, v: Version, params: Params, config: SlowBurnConfig, n: nat, now: int)
    requires Burning(w, v, params, config, n)
    requires n > 0 ==> Agent(w, ATTACKER).lastActivity == now
    ensures Score(w, v, params, ATTACKER, now) == BurnScore(v, params, config, n)
  {
    var r := Agent(w, ATTACKER);
    CountAccomplices(Min(n, Helpers(v, config)));
    if r.lastActivity > 0 && n > 0 {
      var signal := NetSignal(r, v);
      assert DecayBps(now - r.lastActivity, params.decayGraceSecs, params.decayHorizonSecs) == BPS_DENOMINATOR;
      assert (signal * BPS_DENOMINATOR) / BPS_DENOMINATOR == signal;
    }
  }

  // ---- the driver ----

  /** One simulated day: `attestsPerDay` completions, each with the next accomplice's receipt. */
  method BurnDay(sim: Simulator, config: SlowBurnConfig, day: nat, receiptIndex: nat, ghost n: nat)
    returns (receiptIndex': nat)
    requires Burning(sim.Value(), sim.version, sim.params, config, n)
    requires Helpers(sim.version, config) > 0 ==> receiptIndex == n
    modifies sim
    ensures Burning(sim.Value(), sim.version, sim.params, config, n + config.attestsPerDay)
    ensures Helpers(sim.version, config) > 0 ==> receiptIndex' == n + config.attestsPerDay
    ensures config.attestsPerDay > 0 ==> Agent(sim.Value(), ATTACKER).lastActivity == day * DAY
  {
    receiptIndex' := receiptIndex;
    for i := 0 to config.attestsPerDay
      invariant Burning(sim.Value(), sim.version, sim.params, config, n + i)
      invariant Helpers(sim.version, config) > 0 ==> receiptIndex' == n + i
      invariant i > 0 ==> Agent(sim.Value(), ATTACKER).lastActivity == day * DAY
    {
      receiptIndex' := BurnOne(sim, config, day * DAY, receiptIndex', n + i);
    }
  }

  method BurnOne(sim: Simulator, config: SlowBurnConfig, now: int, receiptIndex: nat, ghost n: nat)
    returns (receiptIndex': nat)
    requires Burning(sim.Value(), sim.version, sim.params, config, n)
    requires Helpers(sim.version, config) > 0 ==> receiptIndex == n
    modifies sim
    ensures Burning(sim.Value(), sim.version, sim.params, config, n + 1)
    ensures Helpers(sim.version, config) > 0 ==> receiptIndex' == n + 1
    ensures Agent(sim.Value(), ATTACKER).lastActivity == now
  {
    var helpers := Helpers(sim.version, config);
    receiptIndex' := receiptIndex;
    if helpers > 0 {
      ReceiptBurns(sim.Value(), sim.version, sim.params, config, n, now);
    } else {
      AttestBurns(sim.Value(), sim.version, sim.params, config, n, now);
    }
    var id := sim.Attest(ATTACKER, now);
    if helpers > 0 {
      var counterparty := Accomplice(receiptIndex' % helpers);
      receiptIndex' := receiptIndex' + 1;
      sim.Rate(counterparty, ATTACKER);
    }
  }

  function DaysRun(harvest: Option<nat>, config: SlowBurnConfig): nat
  {
    if harvest.Some? then harvest.value else config.horizonDays
  }

  lemma DayCount(day: nat, perDay: nat)
    requires day >= 1
    ensures (day - 1) * perDay + perDay == day * perDay
    ensures perDay == 0 ==> day * perDay == 0
  {
  }

  /** Run the days until the target is met or the horizon ends. */
  method AccumulateUntilTarget(sim: Simulator, config: SlowBurnConfig)
    returns (daysToThreshold: Option<nat>, scoreAtHarvest: int, ghost n: nat)
    requires Burning(sim.Value(), sim.version, sim.params, config, 0)
    modifies sim
    ensures daysToThreshold == HarvestDay(sim.version, config)
    ensures n == DaysRun(daysToThreshold, config) * config.attestsPerDay
    ensures Burning(sim.Value(), sim.version, sim.params, config, n)
    ensures scoreAtHarvest == if daysToThreshold.Some? then BurnScore(sim.version, sim.params, config, n) else 0
    ensures daysToThreshold.Some? ==> scoreAtHarvest >= config.targetScore
    ensures daysToThreshold.None? && n > 0 ==> Agent(sim.Value(), ATTACKER).lastActivity == config.horizonDays * DAY
  {
    daysToThreshold, scoreAtHarvest, n := None, 0, 0;
    var receiptIndex := 0;
    var day := 1;
    while day <= config.horizonDays
      invariant 1 <= day <= config.horizonDays + 1
      invariant n == (day - 1) * config.attestsPerDay
      invariant Burning(sim.Value(), sim.version, sim.params, config, n)
      invariant Helpers(sim.version, config) > 0 ==> receiptIndex == n
      invariant Reachable(sim.version, config) ==> FirstDay(sim.version, config) >= day
      invariant n > 0 ==> Agent(sim.Value(), ATTACKER).lastActivity == (day - 1) * DAY
    {
      receiptIndex := BurnDay(sim, config, day, receiptIndex, n);
      n := n + config.attestsPerDay;
      DayCount(day, config.attestsPerDay);
      BurnedScores(sim.Value(), sim.version, sim.params, config, n, day * DAY);
      TargetMet(sim.version, sim.params, config, day);
      TouchedStaysBurning(sim.Value(), ATTACKER, sim.version, sim.params, config, n);
      var score := sim.ScoreOf(ATTACKER, day * DAY);
      if score >= config.targetScore {
        daysToThreshold := Some(day);
        scoreAtHarvest := score;
        return;
      }
      day := day + 1;
    }
  }

  /** After the fraud every completion counts as disputed and the bonds are gone: no score survives, at any time. */
  lemma NothingSurvives(w: World, v: Version, params: Params, config: SlowBurnConfig, n: nat, now: int)
    requires Burned(Agent(w, ATTACKER), v, params, config, n)
    ensures
      var slashed := SlashStake(w, ATTACKER, Slashable(w, v, params, ATTACKER));
      var r := Agent(slashed, ATTACKER);
      Score(Put(slashed, ATTACKER, r.(disputes := r.completions)), v, params, ATTACKER, now) == 0
  {
    CountAccomplices(Min(n, Helpers(v, config)));
  }

  method RunSlowBurnHarvest(version: Version, params: Params, config: SlowBurnConfig) returns (r: SlowBurnResult)
    ensures r.daysToThreshold == HarvestDay(version, config)
    ensures var n := DaysRun(r.daysToThreshold, config) * config.attestsPerDay;
      && r.spentWei == BurnSpent(version, config, n)
      && (r.daysToThreshold.Some? ==> r.scoreAtHarvest == BurnScore(version, params, config, n) >= config.targetScore)
    ensures r.slashableWei == LockedStake(version, params, config)
    ensures r.daysToThreshold.Some? ==> r.scoreAfterSlash == 0
    ensures r.daysToThreshold.None? ==>
              && r.scoreAtHarvest == 0
              && r.scoreAfterSlash == BurnScore(version, params, config, config.horizonDays * config.attestsPerDay)
  {
    var sim := new Simulator(version, params);
    PostBonds(sim, config);
    var days, scoreAtHarvest;
    ghost var n;
    days, scoreAtHarvest, n := AccumulateUntilTarget(sim, config);
    var slashableWei := if version.V05? then Agent(sim.Value(), ATTACKER).lockedWei else params.capabilityBondWei;
    var spentWei := Agent(sim.Value(), ATTACKER).spentWei + SumSpent(sim.Value(), 1, Helpers(version, config));
    var scoreAfterSlash;
    if days.Some? {
      scoreAfterSlash := Expose(sim, config, n);
    } else {
      BurnedScores(sim.Value(), version, params, config, n, config.horizonDays * DAY);
      scoreAfterSlash := sim.ScoreOf(ATTACKER, config.horizonDays * DAY);
    }
    r := SlowBurnResult(days, scoreAtHarvest, spentWei, slashableWei, scoreAfterSlash);
  }

  /** Register one capability, and stake for the target where the version asks for it. */
  method PostBonds(sim: Simulator, config: SlowBurnConfig)
    requires sim.Value() == EMPTY_WORLD
    modifies sim
    ensures Burning(sim.Value(), sim.version, sim.params, config, 0)
  {
    var record := sim.EnsureAgent(ATTACKER);
    record := record.(lockedWei := record.lockedWei + sim.params.capabilityBondWei);
    record := record.(spentWei := record.spentWei + REGISTER_COST);
    sim.agents := sim.agents[ATTACKER := record];
    if sim.version.V05? {
      sim.LockCapital(ATTACKER, CapitalRequiredForScore(config.targetScore));
    }
    FreshBurning(sim.Value(), sim.version, sim.params, config);
  }

  /** The fraud comes out: the bonds are slashed and every completion counts as disputed. */
  method Expose(sim: Simulator, config: SlowBurnConfig, ghost n: nat) returns (score: int)
    requires Burning(sim.Value(), sim.version, sim.params, config, n)
    modifies sim
    ensures score == 0
  {
    NothingSurvives(sim.Value(), sim.version, sim.params, config, n, config.horizonDays * DAY);
    sim.SlashCapability(ATTACKER);
    var exposed := sim.EnsureAgent(ATTACKER);
    sim.agents := sim.agents[ATTACKER := exposed.(disputes := exposed.completions)];
    score := sim.ScoreOf(ATTACKER, config.horizonDays * DAY);
  }

  lemma FreshBurning(w: World, v: Version, params: Params, config: SlowBurnConfig)
    requires forall b :: b != ATTACKER ==> Agent(w, b) == NEW_AGENT
    requires Agent(w, ATTACKER) == NEW_AGENT.(lockedWei := LockedStake(v, params, config), spentWei := REGISTER_COST)
    ensures Burning(w, v, params, config, 0)
  {
    NobodySpent(w, 1, Helpers(v, config));
    assert FirstAccomplices(0) == {};
  }
}
