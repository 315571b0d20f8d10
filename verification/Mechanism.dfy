/** The reputation simulator: attest, rate, challenge, resolve, slash, score.

    Every operation appears twice. `Apply` says what it does to a whole world
    as a value, which is what the theorems about runs talk about; the class
    `Simulator` does it step by step in its own fields, and each method is
    proved to land exactly where `Apply` says. */
module Mechanism {

  import opened Parties
  import opened Arithmetic
  import opened Decay

  /** The four TAOP mechanisms, in the order they were introduced. */
  datatype Version = SelfAttest | TwoSided | V03 | V05
  {
    /** A completion counts only once a counterparty has confirmed it. */
    predicate RequiresReceipts() { !SelfAttest? }
  }

  datatype Params = Params(challengeBondWei: nat, capabilityBondWei: nat,
                           decayGraceSecs: nat, decayHorizonSecs: nat)

  const STAKE_PER_POINT_WEI: int := 10_000_000_000_000_000
  const SLASH_PER_DISPUTE_WEI: int := 5 * STAKE_PER_POINT_WEI
  const FREE_POINTS: int := 0

  function TxCost(gas: nat): nat
  {
    gas * (30_000_000 + 10_000_000) + 3_000_000_000_000
  }

  const ATTEST_COST: nat := TxCost(212_186)
  const RECEIPT_COST: nat := TxCost(152_606)
  const CHALLENGE_COST: nat := TxCost(105_920)
  const REGISTER_COST: nat := TxCost(305_621)

  datatype AgentState = AgentState(
    completions: nat,
    disputes: nat,
    confirmations: map<Party, nat>,
    raters: set<Party>,
    lastActivity: int,
    spentWei: int,
    lockedWei: int,
    slashedWei: int)

  const NEW_AGENT := AgentState(0, 0, map[], {}, 0, 0, 0, 0)

  datatype Completion = Completion(
    id: nat,
    agent: Party,
    timestamp: int,
    challenged: bool,
    disputed: bool,
    challenger: Option<Party>,
    receiptFrom: Option<Party>)

  datatype World = World(nextCompletionId: nat, agents: map<Party, AgentState>, completions: seq<Completion>)

  const EMPTY_WORLD := World(1, map[], [])

  datatype Op =
    | Attest(agent: Party, now: int)
    | Rate(from: Party, to: Party)
    | Challenge(completionId: nat, challenger: Party)
    | Resolve(completionId: nat, upheld: bool)
    | SlashCapability(agent: Party)
    | Deposit(agent: Party, wei: nat, gas: nat)

  // ---- reading a world ----

  function Agent(w: World, p: Party): AgentState
  {
    if p in w.agents then w.agents[p] else NEW_AGENT
  }

  function Times(m: map<Party, nat>, p: Party): nat
  {
    if p in m then m[p] else 0
  }

  /** Sum of all confirmation counts. */
  ghost function SumMap(m: map<Party, nat>): nat
  {
    if m == map[] then 0
    else
      var k :| k in m;
      m[k] + SumMap(m - {k})
  }

  /** A completion that a fresh receipt for `to` may attach to. */
  predicate Open(c: Completion, to: Party)
  {
    c.agent == to && c.receiptFrom == None && !c.challenged && !c.disputed
  }

  function LatestOpen(cs: seq<Completion>, to: Party): (r: Option<nat>)
    ensures r.Some? ==> r.value < |cs| && Open(cs[r.value], to)
                        && forall j :: r.value < j < |cs| ==> !Open(cs[j], to)
    ensures r.None? ==> forall j :: 0 <= j < |cs| ==> !Open(cs[j], to)
  {
    if cs == [] then None
    else if Open(cs[|cs| - 1], to) then Some(|cs| - 1)
    else LatestOpen(cs[..|cs| - 1], to)
  }

  function IndexOf(cs: seq<Completion>, id: nat): (r: Option<nat>)
    ensures r.Some? ==> r.value < |cs| && cs[r.value].id == id && forall j :: 0 <= j < r.value ==> cs[j].id != id
    ensures r.None? ==> forall j :: 0 <= j < |cs| ==> cs[j].id != id
  {
    if cs == [] then None
    else
      var before := IndexOf(cs[..|cs| - 1], id);
      if before.Some? then before
      else if cs[|cs| - 1].id == id then Some(|cs| - 1)
      else None
  }

  // ---- what each operation does ----

  function Put(w: World, p: Party, a: AgentState): World
  {
    w.(agents := w.agents[p := a])
  }

  /** First touch of an account creates its empty record. */
  function Ensure(w: World, p: Party): World
  {
    Put(w, p, Agent(w, p))
  }

  function Charge(w: World, p: Party, wei: int): World
  {
    Put(w, p, Agent(w, p).(spentWei := Agent(w, p).spentWei + wei))
  }

  function Confirm(w: World, from: Party, to: Party): World
  {
    var a := Agent(w, to);
    Put(w, to, a.(confirmations := a.confirmations[from := Times(a.confirmations, from) + 1],
                  raters := a.raters + {from}))
  }

  function RemoveConfirmation(a: AgentState, counterparty: Party): AgentState
  {
    if counterparty !in a.confirmations then a
    else if a.confirmations[counterparty] <= 1 then
      a.(confirmations := a.confirmations - {counterparty}, raters := a.raters - {counterparty})
    else
      a.(confirmations := a.confirmations[counterparty := a.confirmations[counterparty] - 1])
  }

  /** Move up to `wei` of an agent's locked funds to slashed. */
  function SlashStake(w: World, p: Party, wei: int): World
  {
    var a := Agent(w, p);
    var slashed := Min(wei, a.lockedWei);
    Put(w, p, a.(lockedWei := a.lockedWei - slashed,
                 slashedWei := a.slashedWei + slashed,
                 spentWei := a.spentWei + slashed))
  }

  function Slashable(w: World, v: Version, params: Params, p: Party): int
  {
    if v.V05? then Agent(w, p).lockedWei else params.capabilityBondWei
  }

  function Submit(w: World, p: Party, now: int): World
  {
    var a := Agent(w, p);
    Put(w, p, a.(completions := a.completions + 1, lastActivity := now, spentWei := a.spentWei + ATTEST_COST))
      .(nextCompletionId := w.nextCompletionId + 1,
        completions := w.completions + [Completion(w.nextCompletionId, p, now, false, false, None, None)])
  }

  function GiveReceipt(w: World, v: Version, from: Party, to: Party): World
  {
    var paid := Charge(Ensure(Ensure(w, from), to), from, RECEIPT_COST);
    if !v.RequiresReceipts() then Confirm(paid, from, to)
    else
      var open := LatestOpen(w.completions, to);
      if open.None? then paid
      else
        var i := open.value;
        Confirm(paid.(completions := w.completions[i := w.completions[i].(receiptFrom := Some(from))]), from, to)
  }

  function OpenChallenge(w: World, params: Params, completionId: nat, challenger: Party): World
  {
    var found := IndexOf(w.completions, completionId);
    if found.None? || w.completions[found.value].challenged then w
    else
      var i := found.value;
      var a := Agent(w, challenger);
      Put(w, challenger, a.(spentWei := a.spentWei + CHALLENGE_COST + params.challengeBondWei,
                            lockedWei := a.lockedWei + params.challengeBondWei))
        .(completions := w.completions[i := w.completions[i].(challenged := true, challenger := Some(challenger))])
  }

  /** The agent loses the confirmation and gains a dispute. */
  function RecordDispute(a: AgentState, receiptFrom: Option<Party>): AgentState
  {
    var marked := a.(disputes := a.disputes + 1);
    if receiptFrom.Some? then RemoveConfirmation(marked, receiptFrom.value) else marked
  }

  function MarkDisputed(w: World, i: nat): World
    requires i < |w.completions|
  {
    var c := w.completions[i];
    Put(w, c.agent, RecordDispute(Agent(w, c.agent), c.receiptFrom))
      .(completions := w.completions[i := c.(disputed := true)])
  }

  function SettleBond(w: World, params: Params, who: Party, upheld: bool): World
  {
    var a := Agent(w, who);
    var released := a.(lockedWei := Max(0, a.lockedWei - params.challengeBondWei));
    Put(w, who, if upheld then released.(spentWei := a.spentWei - params.challengeBondWei)
                else released.(slashedWei := a.slashedWei + params.challengeBondWei))
  }

  function CloseChallenge(w: World, params: Params, completionId: nat, upheld: bool): World
  {
    var found := IndexOf(w.completions, completionId);
    if found.None? || w.completions[found.value].challenger.None? then w
    else
      var who := w.completions[found.value].challenger.value;
      var touched := Ensure(w, who);
      SettleBond(if upheld then MarkDisputed(touched, found.value) else touched, params, who, upheld)
  }

  /** v0.5 slashes the completion's agent before it looks at the challenge. */
  function DisputeSlash(w: World, v: Version, completionId: nat, upheld: bool): World
  {
    var found := IndexOf(w.completions, completionId);
    if v.V05? && upheld && found.Some?
    then SlashStake(w, w.completions[found.value].agent, SLASH_PER_DISPUTE_WEI)
    else w
  }

  function Apply(w: World, v: Version, params: Params, op: Op): World
  {
    match op
    case Attest(agent, now) => Submit(w, agent, now)
    case Rate(from, to) => GiveReceipt(w, v, from, to)
    case Challenge(id, challenger) => OpenChallenge(w, params, id, challenger)
    case Resolve(id, upheld) => CloseChallenge(DisputeSlash(w, v, id, upheld), params, id, upheld)
    case SlashCapability(agent) => SlashStake(w, agent, Slashable(w, v, params, agent))
    case Deposit(agent, wei, gas) =>
      var a := Agent(w, agent);
      Put(w, agent, a.(lockedWei := a.lockedWei + wei, spentWei := a.spentWei + gas))
  }

  /** The world after a run of operations. */
  function Run(w: World, v: Version, params: Params, ops: seq<Op>): World
  {
    if ops == [] then w
    else Apply(Run(w, v, params, ops[..|ops| - 1]), v, params, ops[|ops| - 1])
  }

  // ---- scores ----

  ghost function NetSignal(a: AgentState, v: Version): nat
  {
    match v
    case SelfAttest => a.completions
    case TwoSided => SumMap(a.confirmations)
    case V03 => |a.raters|
    case V05 => |a.raters|
  }

  function StakeCap(a: AgentState): int
  {
    FREE_POINTS + a.lockedWei / STAKE_PER_POINT_WEI
  }

  ghost function Score(w: World, v: Version, params: Params, p: Party, now: int): int
  {
    var a := Agent(w, p);
    var decayed := LinearDecayScore(NetSignal(a, v), a.disputes, a.lastActivity, now,
                                    params.decayGraceSecs, params.decayHorizonSecs);
    if v.V05? then Min(decayed, StakeCap(a)) else decayed
  }

  function CapitalRequiredForScore(target: int): nat
  {
    Max(0, target - FREE_POINTS) * STAKE_PER_POINT_WEI
  }

  // ---- sums over a confirmation map ----

  lemma SumPick(m: map<Party, nat>, p: Party)
    requires p in m
    ensures SumMap(m) == m[p] + SumMap(m - {p})
    decreases |m|
  {
    var k :| k in m && SumMap(m) == m[k] + SumMap(m - {k});
    if k != p {
      SumPick(m - {k}, p);
      SumPick(m - {p}, k);
      assert m - {k} - {p} == m - {p} - {k};
    }
  }

  lemma SumUpdate(m: map<Party, nat>, p: Party, n: nat)
    ensures SumMap(m[p := n]) == SumMap(m) - Times(m, p) + n
  {
    SumPick(m[p := n], p);
    if p in m {
      SumPick(m, p);
      assert m[p := n] - {p} == m - {p};
    } else {
      assert m[p := n] - {p} == m;
    }
  }

  lemma SumAtLeastKeys(m: map<Party, nat>)
    requires forall p :: p in m ==> m[p] >= 1
    ensures |m.Keys| <= SumMap(m)
    decreases |m|
  {
    if m != map[] {
      var k :| k in m && SumMap(m) == m[k] + SumMap(m - {k});
      SumAtLeastKeys(m - {k});
      assert m.Keys == (m - {k}).Keys + {k};
    }
  }

  /** The counts under the listed keys, in order. */
  function SumKeys(m: map<Party, nat>, keys: seq<Party>): nat
    requires forall p :: p in keys ==> p in m
  {
    if keys == [] then 0 else SumKeys(m, keys[..|keys| - 1]) + m[keys[|keys| - 1]]
  }

  function Restricted(m: map<Party, nat>, keys: seq<Party>): map<Party, nat>
  {
    map p | p in m && p in keys :: m[p]
  }

  /** Adding up distinct keys, in any order, adds up their part of the map. */
  lemma {:induction false} SumKeysIsSum(m: map<Party, nat>, keys: seq<Party>)
    requires forall p :: p in keys ==> p in m
    requires forall i, j :: 0 <= i < j < |keys| ==> keys[i] != keys[j]
    ensures SumKeys(m, keys) == SumMap(Restricted(m, keys))
  {
    if keys == [] {
      assert Restricted(m, keys) == map[];
    } else {
      var before, last := keys[..|keys| - 1], keys[|keys| - 1];
      SumKeysIsSum(m, before);
      SumPick(Restricted(m, keys), last);
      assert Restricted(m, keys) - {last} == Restricted(m, before);
    }
  }

  // ---- records alone decide scores ----

  /** Same record for every account, whichever are in the table. */
  ghost predicate SameRecords(w: World, w': World)
  {
    forall b :: Agent(w', b) == Agent(w, b)
  }

  lemma TouchKeepsRecords(w: World, p: Party)
    ensures SameRecords(w, Ensure(w, p))
  {
  }

  lemma SameScore(w: World, w': World, v: Version, params: Params, p: Party, now: int)
    requires SameRecords(w, w')
    ensures Score(w', v, params, p, now) == Score(w, v, params, p, now)
  {
    assert Agent(w', p) == Agent(w, p);
  }

  // ---- the simulator ----

  class Simulator {
    const version: Version
    const params: Params
    var nextCompletionId: nat
    var agents: map<Party, AgentState>
    var completions: seq<Completion>

    function Value(): World
      reads this
    {
      World(nextCompletionId, agents, completions)
    }

    constructor (version: Version, params: Params)
      ensures this.version == version && this.params == params
      ensures Value() == EMPTY_WORLD
    {
      this.version, this.params := version, params;
      nextCompletionId, agents, completions := 1, map[], [];
    }

    /** Look an account up, creating its empty record on first touch. */
    method EnsureAgent(p: Party) returns (record: AgentState)
      modifies this
      ensures Value() == Ensure(old(Value()), p)
      ensures record == Agent(old(Value()), p)
    {
      if p !in agents {
        agents := agents[p := NEW_AGENT];
      }
      record := agents[p];
      assert agents == Ensure(old(Value()), p).agents;
    }

    method Attest(agent: Party, now: int) returns (id: nat)
      modifies this
      ensures Value() == Apply(old(Value()), version, params, Op.Attest(agent, now))
      ensures id == old(nextCompletionId)
    {
      var record := EnsureAgent(agent);
      id := nextCompletionId;
      nextCompletionId := nextCompletionId + 1;
      record := record.(completions := record.completions + 1);
      record := record.(lastActivity := now);
      completions := completions + [Completion(id, agent, now, false, false, None, None)];
      record := record.(spentWei := record.spentWei + ATTEST_COST);
      agents := agents[agent := record];
    }

    /** Scan from the newest completion back for one a receipt can attach to. */
    method FindOpen(to: Party) returns (found: Option<nat>)
      ensures found == LatestOpen(completions, to)
      ensures found.Some? ==> found.value < |completions|
      ensures forall j :: 0 <= j < |completions| && (found.None? || j >= found.value) ==>
                (found == Some(j) <==> completions[j].agent == to && completions[j].receiptFrom.None?
                                       && !completions[j].challenged && !completions[j].disputed)
    {
      var i := |completions|;
      while i > 0
        invariant 0 <= i <= |completions|
        invariant forall j :: i <= j < |completions| ==> !Open(completions[j], to)
      {
        i := i - 1;
        if Open(completions[i], to) {
          return Some(i);
        }
      }
      return None;
    }

    method FindById(id: nat) returns (found: Option<nat>)
      ensures found == IndexOf(completions, id)
    {
      for i := 0 to |completions|
        invariant forall j :: 0 <= j < i ==> completions[j].id != id
      {
        if completions[i].id == id {
          return Some(i);
        }
      }
      return None;
    }

    method Rate(from: Party, to: Party)
      modifies this
      ensures Value() == Apply(old(Value()), version, params, Op.Rate(from, to))
    {
      var counterparty := EnsureAgent(from);
      var unused := EnsureAgent(to);
      counterparty := counterparty.(spentWei := counterparty.spentWei + RECEIPT_COST);
      agents := agents[from := counterparty];
      assert Value() == Charge(Ensure(Ensure(old(Value()), from), to), from, RECEIPT_COST);
      var open := FindOpen(to);
      if version.RequiresReceipts() {
        if open.None? {
          return;
        }
        completions := completions[open.value := completions[open.value].(receiptFrom := Some(from))];
      }
      RecordConfirmation(from, to);
    }

    /** Count one more confirmation of `to` by `from`. */
    method RecordConfirmation(from: Party, to: Party)
      requires to in agents
      modifies this
      ensures Value() == Confirm(old(Value()), from, to)
    {
      var record := agents[to];
      var current := if from in record.confirmations then record.confirmations[from] else 0;
      record := record.(confirmations := record.confirmations[from := current + 1]);
      record := record.(raters := record.raters + {from});
      agents := agents[to := record];
    }

    method Challenge(completionId: nat, challenger: Party)
      modifies this
      ensures Value() == Apply(old(Value()), version, params, Op.Challenge(completionId, challenger))
    {
      var found := FindById(completionId);
      if found.None? || completions[found.value].challenged {
        return;
      }
      var i := found.value;
      completions := completions[i := completions[i].(challenged := true)];
      completions := completions[i := completions[i].(challenger := Some(challenger))];
      var record := EnsureAgent(challenger);
      record := record.(spentWei := record.spentWei + (CHALLENGE_COST + params.challengeBondWei));
      record := record.(lockedWei := record.lockedWei + params.challengeBondWei);
      agents := agents[challenger := record];
    }

    method Resolve(completionId: nat, upheld: bool)
      modifies this
      ensures Value() == Apply(old(Value()), version, params, Op.Resolve(completionId, upheld))
    {
      if version.V05? && upheld {
        var found := FindById(completionId);
        if found.Some? {
          var agent := completions[found.value].agent;
          var record := EnsureAgent(agent);
          var slash := Min(SLASH_PER_DISPUTE_WEI, record.lockedWei);
          record := record.(lockedWei := record.lockedWei - slash);
          record := record.(slashedWei := record.slashedWei + slash);
          record := record.(spentWei := record.spentWei + slash);
          agents := agents[agent := record];
        }
      }
      assert Value() == DisputeSlash(old(Value()), version, completionId, upheld);
      ResolveBase(completionId, upheld);
    }

    /** The resolution every version shares. */
    method ResolveBase(completionId: nat, upheld: bool)
      modifies this
      ensures Value() == CloseChallenge(old(Value()), params, completionId, upheld)
    {
      var found := FindById(completionId);
      if found.None? || completions[found.value].challenger.None? {
        return;
      }
      var i := found.value;
      var completion := completions[i];
      var unused := EnsureAgent(completion.challenger.value);
      if upheld {
        Uphold(i);
      }
      ReleaseBond(completion.challenger.value, upheld);
    }

    /** Mark the completion disputed and take its confirmation back. */
    method Uphold(i: nat)
      requires i < |completions|
      modifies this
      ensures Value() == MarkDisputed(old(Value()), i)
    {
      var completion := completions[i];
      completions := completions[i := completion.(disputed := true)];
      var agent := EnsureAgent(completion.agent);
      agent := agent.(disputes := agent.disputes + 1);
      if completion.receiptFrom.Some? {
        agent := RemoveConfirmation(agent, completion.receiptFrom.value);
      }
      agents := agents[completion.agent := agent];
    }

    /** Give the bond back, or forfeit it. */
    method ReleaseBond(who: Party, upheld: bool)
      modifies this
      ensures Value() == SettleBond(old(Value()), params, who, upheld)
    {
      var challenger := EnsureAgent(who);
      challenger := challenger.(lockedWei := Max(0, challenger.lockedWei - params.challengeBondWei));
      if upheld {
        challenger := challenger.(spentWei := challenger.spentWei - params.challengeBondWei);
      } else {
        challenger := challenger.(slashedWei := challenger.slashedWei + params.challengeBondWei);
      }
      agents := agents[who := challenger];
    }

    method SlashCapability(agent: Party)
      modifies this
      ensures Value() == Apply(old(Value()), version, params, Op.SlashCapability(agent))
    {
      var record := EnsureAgent(agent);
      var slashable := if version.V05? then record.lockedWei else params.capabilityBondWei;
      var slashed := Min(slashable, record.lockedWei);
      record := record.(lockedWei := record.lockedWei - slashed);
      record := record.(slashedWei := record.slashedWei + slashed);
      record := record.(spentWei := record.spentWei + slashed);
      agents := agents[agent := record];
    }

    /** Lock capital behind a score. Only v0.5 offers this. */
    method LockCapital(agent: Party, wei: nat)
      requires version.V05?
      modifies this
      ensures Value() == Apply(old(Value()), version, params, Op.Deposit(agent, wei, 0))
    {
      var record := EnsureAgent(agent);
      record := record.(lockedWei := record.lockedWei + wei);
      agents := agents[agent := record];
    }

    method ConfirmedCount(agent: AgentState) returns (total: nat)
      ensures total == SumMap(agent.confirmations)
    {
      total := 0;
      var keys := Spread(agent.confirmations.Keys);
      for i := 0 to |keys|
        invariant total == SumKeys(agent.confirmations, keys[..i])
      {
        assert keys[..i + 1][..i] == keys[..i];
        total := total + agent.confirmations[keys[i]];
      }
      assert keys[..|keys|] == keys;
      SumKeysIsSum(agent.confirmations, keys);
      assert Restricted(agent.confirmations, keys) == agent.confirmations;
    }

    /** The score of an account, whose empty record is created on first touch. */
    method ScoreOf(agent: Party, now: int) returns (score: int)
      modifies this
      ensures Value() == Ensure(old(Value()), agent)
      ensures score == Score(old(Value()), version, params, agent, now)
    {
      var record := EnsureAgent(agent);
      var signal: nat;
      match version {
        case SelfAttest => signal := record.completions;
        case TwoSided => signal := ConfirmedCount(record);
        case V03 => signal := |record.raters|;
        case V05 => signal := |record.raters|;
      }
      score := LinearDecayScore(signal, record.disputes, record.lastActivity, now,
                                params.decayGraceSecs, params.decayHorizonSecs);
      if version.V05? {
        score := Min(score, FREE_POINTS + record.lockedWei / STAKE_PER_POINT_WEI);
      }
    }
  }
}
