/** One completion of a sybil farm: an attestation, the ring neighbour's receipt,
    and whatever the watchers do about it. What it does to the standing and to
    the capital of every account. */
module SybilRound {

  import opened Arithmetic
  import opened Parties
  import opened Mechanism
  import opened Bookkeeping
  import opened Spending

  /** What the watchers do with one completion. */
  datatype Outcome = Unchallenged | Upheld | Dismissed

  /** Points lost to one upheld dispute. */
  function PointsPerDispute(v: Version): nat
  {
    match v
    case SelfAttest => 1
    case TwoSided => 2
    case V03 => 2
    case V05 => 5
  }

  /** The score one identity keeps after `k` farmed completions and `d` upheld disputes. */
  function FarmedScore(v: Version, k: nat, d: nat): nat
  {
    Max(0, k - PointsPerDispute(v) * d)
  }

  // ---- one farmed completion ----

  /** Attest, collect a receipt when one is on offer, and live through the watchers. */
  function FarmRound(w: World, v: Version, params: Params, a: Party, from: Option<Party>,
                     outcome: Outcome, challenger: Party): World
  {
    var id := w.nextCompletionId;
    var attested := Apply(w, v, params, Attest(a, 0));
    var rated := if from.Some? then Apply(attested, v, params, Rate(from.value, a)) else attested;
    if outcome.Unchallenged? then rated
    else Apply(Apply(rated, v, params, Challenge(id, challenger)), v, params, Resolve(id, outcome.Upheld?))
  }

  /** An identity `k` completions and `d` upheld disputes in: every surviving
      confirmation is a single one from a distinct counterparty in `used`. */
  ghost predicate Farmed(r: AgentState, v: Version, k: nat, d: nat, used: set<Party>)
  {
    && d <= k && r.completions == k && r.disputes == d && r.lastActivity == 0
    && r.raters == r.confirmations.Keys && r.confirmations.Keys <= used
    && (forall f :: f in r.confirmations ==> r.confirmations[f] == 1)
    && (v.RequiresReceipts() ==> |r.raters| == k - d)
  }

  /** Stake left after `d` dispute slashes. */
  predicate StakeLeft(r: AgentState, v: Version, stake: nat, d: nat)
  {
    v.V05? ==> r.lockedWei == Max(0, stake - d * SLASH_PER_DISPUTE_WEI)
  }

  /** Everything the score reads of a record, except the stake. */
  predicate SameStanding(r: AgentState, s: AgentState)
  {
    SameCredit(r, s) && r.lastActivity == s.lastActivity
  }

  /** Only `a` may change standing, and only `a` and `challenger` may change stake. */
  ghost predicate OthersUntouched(w: World, w': World, a: Party, challenger: Party)
  {
    && (forall b :: b != a ==> SameStanding(Agent(w', b), Agent(w, b)))
    && (forall b :: b != a && b != challenger ==> Agent(w', b).lockedWei == Agent(w, b).lockedWei)
  }

  /** The world after an undisturbed round. */
  lemma RatedRound(w: World, v: Version, params: Params, a: Party, from: Option<Party>)
    requires Numbered(w) && from != Some(a)
    requires from.Some? <==> v.RequiresReceipts()
    ensures
      var w2 := FarmRound(w, v, params, a, from, Unchallenged, a);
      && Numbered(w2)
      && w2.completions == w.completions + [Completion(w.nextCompletionId, a, 0, false, false, None, from)]
      && Agent(w2, a).lockedWei == Agent(w, a).lockedWei
      && SameStanding(Agent(w2, a), AfterReceipt(Agent(w, a), from))
      && OthersUntouched(w, w2, a, a)
  {
    var w1 := Submit(w, a, 0);
    if from.Some? {
      assert w1.completions[|w.completions|] == Completion(w.nextCompletionId, a, 0, false, false, None, None);
      assert LatestOpen(w1.completions, a) == Some(|w.completions|);
    }
  }

  function AfterReceipt(r: AgentState, from: Option<Party>): AgentState
  {
    var attested := r.(completions := r.completions + 1, lastActivity := 0);
    if from.None? then attested
    else attested.(confirmations := r.confirmations[from.value := Times(r.confirmations, from.value) + 1],
                   raters := r.raters + {from.value})
  }

  lemma OpenedChallenge(w: World, v: Version, params: Params, i: nat, challenger: Party)
    requires Numbered(w) && i < |w.completions| && !w.completions[i].challenged
    ensures
      var c := w.completions[i];
      var w1 := Apply(w, v, params, Challenge(c.id, challenger));
      && Numbered(w1)
      && w1.completions == w.completions[i := c.(challenged := true, challenger := Some(challenger))]
      && OthersUntouched(w, w1, c.agent, challenger)
      && SameStanding(Agent(w1, c.agent), Agent(w, c.agent))
      && (challenger != c.agent ==> Agent(w1, c.agent).lockedWei == Agent(w, c.agent).lockedWei)
  {
    IndexIsId(w, w.completions[i].id);
  }

  lemma SlashedForDispute(w: World, v: Version, i: nat, upheld: bool)
    requires Numbered(w) && i < |w.completions|
    ensures
      var a := w.completions[i].agent;
      var w2 := DisputeSlash(w, v, w.completions[i].id, upheld);
      && w2.completions == w.completions && w2.nextCompletionId == w.nextCompletionId
      && OthersUntouched(w, w2, a, a)
      && SameStanding(Agent(w2, a), Agent(w, a))
      && (v.V05? ==> Agent(w2, a).lockedWei == AfterSlash(Agent(w, a).lockedWei, upheld))
  {
    IndexIsId(w, w.completions[i].id);
  }

  /** Settling the bond is the challenger's business alone. */
  lemma SettledBond(w: World, params: Params, who: Party, upheld: bool, a: Party)
    ensures
      var w' := SettleBond(w, params, who, upheld);
      && w'.completions == w.completions && w'.nextCompletionId == w.nextCompletionId
      && OthersUntouched(w, w', a, who) && SameStanding(Agent(w', a), Agent(w, a))
      && (who != a ==> Agent(w', a).lockedWei == Agent(w, a).lockedWei)
  {
  }

  lemma MarkedDispute(w: World, i: nat)
    requires Numbered(w) && i < |w.completions|
    ensures
      var c := w.completions[i];
      var w' := MarkDisputed(w, i);
      && Numbered(w') && OthersUntouched(w, w', c.agent, c.agent)
      && SameStanding(Agent(w', c.agent), RecordDispute(Agent(w, c.agent), c.receiptFrom))
      && Agent(w', c.agent).lockedWei == Agent(w, c.agent).lockedWei
  {
  }

  lemma ClosedChallenge(w: World, params: Params, i: nat, upheld: bool)
    requires Numbered(w) && i < |w.completions| && w.completions[i].challenger.Some?
    ensures
      var c := w.completions[i];
      var w' := CloseChallenge(w, params, c.id, upheld);
      && Numbered(w')
      && OthersUntouched(w, w', c.agent, c.challenger.value)
      && SameStanding(Agent(w', c.agent), Ruled(Agent(w, c.agent), c.receiptFrom, upheld))
      && (c.challenger.value != c.agent ==> Agent(w', c.agent).lockedWei == Agent(w, c.agent).lockedWei)
  {
    var c := w.completions[i];
    var who := c.challenger.value;
    IndexIsId(w, c.id);
    var touched := Ensure(w, who);
    assert SameRecords(w, touched) && touched.completions == w.completions;
    if upheld {
      MarkedDispute(touched, i);
      SettledBond(MarkDisputed(touched, i), params, who, upheld, c.agent);
    } else {
      SettledBond(touched, params, who, upheld, c.agent);
    }
  }

  /** The record of the agent ruled on. */
  function Ruled(r: AgentState, receiptFrom: Option<Party>, upheld: bool): AgentState
  {
    if upheld then RecordDispute(r, receiptFrom) else r
  }

  /** The ruling itself, with v0.5's slash in front of it. */
  lemma ResolvedRound(w: World, v: Version, params: Params, i: nat, upheld: bool)
    requires Numbered(w) && i < |w.completions| && w.completions[i].challenger.Some?
    requires v.V05? ==> w.completions[i].challenger.value != w.completions[i].agent
    ensures
      var c := w.completions[i];
      var w' := Apply(w, v, params, Resolve(c.id, upheld));
      && Numbered(w')
      && OthersUntouched(w, w', c.agent, c.challenger.value)
      && SameStanding(Agent(w', c.agent), Ruled(Agent(w, c.agent), c.receiptFrom, upheld))
      && (v.V05? ==> Agent(w', c.agent).lockedWei == AfterSlash(Agent(w, c.agent).lockedWei, upheld))
  {
    var c := w.completions[i];
    SlashedForDispute(w, v, i, upheld);
    var slashed := DisputeSlash(w, v, c.id, upheld);
    ClosedChallenge(slashed, params, i, upheld);
    SameRuling(Agent(w, c.agent), Agent(slashed, c.agent), c.receiptFrom, upheld);
    UntouchedTwice(w, slashed, CloseChallenge(slashed, params, c.id, upheld), c.agent, c.agent, c.challenger.value);
  }

  lemma SameRuling(r: AgentState, s: AgentState, receiptFrom: Option<Party>, upheld: bool)
    requires SameStanding(s, r)
    ensures SameStanding(Ruled(s, receiptFrom, upheld), Ruled(r, receiptFrom, upheld))
  {
  }

  lemma ChallengedRound(w: World, v: Version, params: Params, i: nat, upheld: bool, challenger: Party)
    requires Numbered(w) && i < |w.completions| && !w.completions[i].challenged
    requires v.V05? ==> challenger != w.completions[i].agent
    ensures
      var c := w.completions[i];
      var w' := Apply(Apply(w, v, params, Challenge(c.id, challenger)), v, params, Resolve(c.id, upheld));
      && Numbered(w')
      && OthersUntouched(w, w', c.agent, challenger)
      && SameStanding(Agent(w', c.agent), Ruled(Agent(w, c.agent), c.receiptFrom, upheld))
      && (v.V05? ==> Agent(w', c.agent).lockedWei == AfterSlash(Agent(w, c.agent).lockedWei, upheld))
  {
    var c := w.completions[i];
    OpenedChallenge(w, v, params, i, challenger);
    var w1 := Apply(w, v, params, Challenge(c.id, challenger));
    assert w1.completions[i] == c.(challenged := true, challenger := Some(challenger));
    ResolvedRound(w1, v, params, i, upheld);
    SameRuling(Agent(w, c.agent), Agent(w1, c.agent), c.receiptFrom, upheld);
    UntouchedTwice(w, w1, Apply(w1, v, params, Resolve(c.id, upheld)), c.agent, challenger, challenger);
  }

  function AfterSlash(locked: int, upheld: bool): int
  {
    if upheld then locked - Min(SLASH_PER_DISPUTE_WEI, locked) else locked
  }

  /** Steps that share an agent, where the first may share the challenger too. */
  lemma UntouchedTwice(w: World, w1: World, w2: World, a: Party, first: Party, challenger: Party)
    requires first == a || first == challenger
    requires OthersUntouched(w, w1, a, first) && OthersUntouched(w1, w2, a, challenger)
    ensures OthersUntouched(w, w2, a, challenger)
  {
    forall b | b != a
      ensures SameStanding(Agent(w2, b), Agent(w, b))
      ensures b != challenger ==> Agent(w2, b).lockedWei == Agent(w, b).lockedWei
    {
      assert SameStanding(Agent(w1, b), Agent(w, b)) && SameStanding(Agent(w2, b), Agent(w1, b));
    }
  }

  /** An upheld dispute removes the receipt that came with the completion. */
  lemma DisputeFarms(r: AgentState, s: AgentState, v: Version, from: Option<Party>, k: nat, d: nat, used: set<Party>)
    requires Farmed(r, v, k, d, used) && d < k
    requires from.Some? <==> v.RequiresReceipts()
    requires from.Some? ==> from.value in r.confirmations
    requires SameStanding(s, RecordDispute(r, from))
    ensures Farmed(s, v, k, d + 1, used)
  {
  }

  lemma ReceiptFarms(r: AgentState, s: AgentState, v: Version, from: Option<Party>, k: nat, d: nat, used: set<Party>)
    requires Farmed(r, v, k, d, used)
    requires from.Some? <==> v.RequiresReceipts()
    requires from.Some? ==> from.value !in used
    requires SameStanding(s, AfterReceipt(r, from))
    ensures Farmed(s, v, k + 1, d, used + Offered(from))
    ensures from.Some? ==> from.value in s.confirmations
  {
  }

  function Offered(from: Option<Party>): set<Party>
  {
    if from.Some? then {from.value} else {}
  }

  /** `w'` follows `w` by one round: `a` stands at `k` and `d`, and only `challenger` shared its stake movements. */
  ghost predicate RoundDone(w: World, w': World, v: Version, a: Party, k: nat, d: nat, used: set<Party>, stake: nat,
                            challenger: Party)
  {
    && Numbered(w')
    && Farmed(Agent(w', a), v, k, d, used)
    && StakeLeft(Agent(w', a), v, stake, d)
    && OthersUntouched(w, w', a, challenger)
  }

  lemma UnchallengedRoundFarms(w: World, v: Version, params: Params, a: Party, from: Option<Party>, k: nat, d: nat,
                               used: set<Party>, stake: nat)
    requires Numbered(w) && Farmed(Agent(w, a), v, k, d, used) && StakeLeft(Agent(w, a), v, stake, d)
    requires from.Some? <==> v.RequiresReceipts()
    requires from.Some? ==> from.value != a && from.value !in used
    ensures
      var w2 := FarmRound(w, v, params, a, from, Unchallenged, a);
      && RoundDone(w, w2, v, a, k + 1, d, used + Offered(from), stake, a)
      && w2.completions == w.completions + [Completion(w.nextCompletionId, a, 0, false, false, None, from)]
      && (from.Some? ==> from.value in Agent(w2, a).confirmations)
  {
    RatedRound(w, v, params, a, from);
    var w2 := FarmRound(w, v, params, a, from, Unchallenged, a);
    ReceiptFarms(Agent(w, a), Agent(w2, a), v, from, k, d, used);
  }

  /** A challenge and its ruling on the completion just farmed. */
  lemma ChallengeFarms(w: World, v: Version, params: Params, i: nat, upheld: bool, challenger: Party, k: nat, d: nat,
                       used: set<Party>, stake: nat)
    requires Numbered(w) && i < |w.completions| && !w.completions[i].challenged
    requires v.V05? ==> challenger != w.completions[i].agent
    requires Farmed(Agent(w, w.completions[i].agent), v, k, d, used) && d < k
    requires StakeLeft(Agent(w, w.completions[i].agent), v, stake, d)
    requires w.completions[i].receiptFrom.Some? <==> v.RequiresReceipts()
    requires var r := Agent(w, w.completions[i].agent);
      w.completions[i].receiptFrom.Some? ==> w.completions[i].receiptFrom.value in r.confirmations
    ensures
      var c := w.completions[i];
      var w' := Apply(Apply(w, v, params, Challenge(c.id, challenger)), v, params, Resolve(c.id, upheld));
      RoundDone(w, w', v, c.agent, k, d + (if upheld then 1 else 0), used, stake, challenger)
  {
    var c := w.completions[i];
    var w' := Apply(Apply(w, v, params, Challenge(c.id, challenger)), v, params, Resolve(c.id, upheld));
    ChallengedRound(w, v, params, i, upheld, challenger);
    if upheld {
      DisputeFarms(Agent(w, c.agent), Agent(w', c.agent), v, c.receiptFrom, k, d, used);
    }
  }

  /** One round farms one more completion and disturbs nobody else's standing. */
  lemma RoundFarms(w: World, v: Version, params: Params, a: Party, from: Option<Party>, outcome: Outcome,
                   challenger: Party, k: nat, d: nat, used: set<Party>, stake: nat)
    requires Numbered(w) && Farmed(Agent(w, a), v, k, d, used) && StakeLeft(Agent(w, a), v, stake, d)
    requires from.Some? <==> v.RequiresReceipts()
    requires from.Some? ==> from.value != a && from.value !in used
    requires v.V05? && !outcome.Unchallenged? ==> challenger != a
    ensures RoundDone(w, FarmRound(w, v, params, a, from, outcome, challenger), v, a,
                      k + 1, d + (if outcome.Upheld? then 1 else 0), used + Offered(from), stake,
                      if outcome.Unchallenged? then a else challenger)
  {
    UnchallengedRoundFarms(w, v, params, a, from, k, d, used, stake);
    if !outcome.Unchallenged? {
      var w2 := FarmRound(w, v, params, a, from, Unchallenged, a);
      ChallengeFarms(w2, v, params, |w.completions|, outcome.Upheld?, challenger, k + 1, d, used + Offered(from),
                     stake);
      UntouchedTwice(w, w2, FarmRound(w, v, params, a, from, outcome, challenger), a, a, challenger);
    }
  }

  /** What a fully farmed identity scores. */
  lemma FarmedScores(w: World, v: Version, params: Params, a: Party, k: nat, d: nat, used: set<Party>)
    requires Farmed(Agent(w, a), v, k, d, used)
    requires StakeLeft(Agent(w, a), v, k * STAKE_PER_POINT_WEI, d)
    ensures Score(w, v, params, a, 0) == FarmedScore(v, k, d)
    ensures v.V05? ==> Agent(w, a).lockedWei == FarmedScore(v, k, d) * STAKE_PER_POINT_WEI
  {
    var r := Agent(w, a);
    if v.TwoSided? {
      SumOfOnes(r.confirmations);
    }
    if v.V05? {
      StakePoints(k, d);
    }
  }

  /** Each dispute slash takes exactly five points of stake. */
  lemma StakePoints(k: nat, d: nat)
    ensures Max(0, k * STAKE_PER_POINT_WEI - d * SLASH_PER_DISPUTE_WEI) == FarmedScore(V05, k, d) * STAKE_PER_POINT_WEI
    ensures (FarmedScore(V05, k, d) * STAKE_PER_POINT_WEI) / STAKE_PER_POINT_WEI == FarmedScore(V05, k, d)
  {
  }

  lemma {:induction false} SumOfOnes(m: map<Party, nat>)
    requires forall f :: f in m ==> m[f] == 1
    ensures SumMap(m) == |m.Keys|
    decreases |m|
  {
    if m != map[] {
      var f :| f in m;
      SumPick(m, f);
      SumOfOnes(m - {f});
      assert m.Keys == (m - {f}).Keys + {f};
    }
  }

  // ---- what a round costs ----

  /** Challengers are fresh accounts numbered from here. */
  const FIRST_CHALLENGER := 10_001

  /** What one point takes: an attestation, its receipt, and its stake where stake is asked for. */
  function PointPrice(v: Version): nat
  {
    ATTEST_COST + ReceiptPrice(v) + StakePrice(v)
  }

  function ReceiptPrice(v: Version): nat
  {
    if v.RequiresReceipts() then RECEIPT_COST else 0
  }

  function StakePrice(v: Version): nat
  {
    if v.V05? then STAKE_PER_POINT_WEI else 0
  }

  /** Below the challengers, only the attester and the receipt's issuer put up capital. */
  ghost predicate RoundPaid(w: World, w': World, a: Party, from: Option<Party>)
  {
    forall b: Party :: b.id < FIRST_CHALLENGER ==>
      Capital(w', b)
      == Capital(w, b) + (if b == a then ATTEST_COST else 0) + (if from == Some(b) then RECEIPT_COST else 0)
  }

  lemma ChallengeCapital(w: World, params: Params, id: nat, challenger: Party, b: Party)
    requires b != challenger
    ensures Capital(OpenChallenge(w, params, id, challenger), b) == Capital(w, b)
  {
  }

  /** Slashing turns locked capital into spent capital. */
  lemma SlashCapital(w: World, v: Version, id: nat, upheld: bool, b: Party)
    ensures Capital(DisputeSlash(w, v, id, upheld), b) == Capital(w, b)
  {
  }

  lemma CloseCapital(w: World, params: Params, i: nat, upheld: bool, b: Party)
    requires Numbered(w) && i < |w.completions| && w.completions[i].challenger.Some?
    requires b != w.completions[i].challenger.value
    ensures Capital(CloseChallenge(w, params, w.completions[i].id, upheld), b) == Capital(w, b)
  {
    IndexIsId(w, w.completions[i].id);
    var who := w.completions[i].challenger.value;
    var touched := Ensure(w, who);
    var marked := if upheld then MarkDisputed(touched, i) else touched;
    assert CloseChallenge(w, params, w.completions[i].id, upheld) == SettleBond(marked, params, who, upheld);
    assert Capital(marked, b) == Capital(w, b);
  }

  /** A ruled challenge moves nobody's capital but the challenger's. */
  lemma RulingCapital(w: World, v: Version, params: Params, i: nat, upheld: bool, challenger: Party, b: Party)
    requires Numbered(w) && i < |w.completions| && !w.completions[i].challenged && b != challenger
    ensures
      var id := w.completions[i].id;
      Capital(Apply(Apply(w, v, params, Challenge(id, challenger)), v, params, Resolve(id, upheld)), b) == Capital(w, b)
  {
    var id := w.completions[i].id;
    ChallengeCapital(w, params, id, challenger, b);
    OpenedChallenge(w, v, params, i, challenger);
    var w1 := Apply(w, v, params, Challenge(id, challenger));
    SlashCapital(w1, v, id, upheld, b);
    SlashedForDispute(w1, v, i, upheld);
    CloseCapital(DisputeSlash(w1, v, id, upheld), params, i, upheld, b);
  }

  /** A round costs its attestation and its receipt, whatever the watchers do. */
  lemma RoundCosts(w: World, v: Version, params: Params, a: Party, from: Option<Party>, outcome: Outcome,
                   challenger: Party)
    requires Numbered(w) && from != Some(a)
    requires from.Some? <==> v.RequiresReceipts()
    requires !outcome.Unchallenged? ==> challenger.id >= FIRST_CHALLENGER
    ensures RoundPaid(w, FarmRound(w, v, params, a, from, outcome, challenger), a, from)
  {
    var w2 := FarmRound(w, v, params, a, from, Unchallenged, a);
    RatedCosts(w, v, params, a, from);
    if !outcome.Unchallenged? {
      RatedRound(w, v, params, a, from);
      var w' := FarmRound(w, v, params, a, from, outcome, challenger);
      forall b: Party | b.id < FIRST_CHALLENGER
        ensures Capital(w', b) == Capital(w2, b)
      {
        RulingCapital(w2, v, params, |w.completions|, outcome.Upheld?, challenger, b);
      }
    }
  }

  lemma RatedCosts(w: World, v: Version, params: Params, a: Party, from: Option<Party>)
    ensures RoundPaid(w, FarmRound(w, v, params, a, from, Unchallenged, a), a, from)
  {
    AttestMoney(w, a);
    if from.Some? {
      RateMoney(Submit(w, a, 0), v, from.value, a);
    }
  }
}
