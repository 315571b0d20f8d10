/** Concrete runs of the simulator on which its books or its money go wrong, and
    the input on which the two decay curves differ. */
module SimulatorCounterexamples {

  import opened Parties
  import opened Decay
  import opened Mechanism
  import opened Bookkeeping
  import opened WeiConservation

  const ALICE := Party(1)
  const BOB := Party(2)

  lemma RunOne(v: Version, params: Params, ops: seq<Op>, op: Op)
    ensures Run(EMPTY_WORLD, v, params, ops + [op]) == Apply(Run(EMPTY_WORLD, v, params, ops), v, params, op)
  {
    assert (ops + [op])[..|ops|] == ops;
  }

  /** The world after Alice has attested and Bob has challenged it. */
  lemma OneChallenge(v: Version, params: Params)
    ensures
      var w := Run(EMPTY_WORLD, v, params, [Attest(ALICE, 0), Challenge(1, BOB)]);
      && w.completions == [Completion(1, ALICE, 0, true, false, Some(BOB), None)]
      && Agent(w, ALICE).completions == 1 && Agent(w, ALICE).disputes == 0
  {
    var w1 := Submit(EMPTY_WORLD, ALICE, 0);
    assert [Attest(ALICE, 0)] == [] + [Attest(ALICE, 0)];
    RunOne(v, params, [], Attest(ALICE, 0));
    RunOne(v, params, [Attest(ALICE, 0)], Challenge(1, BOB));
    assert [Attest(ALICE, 0), Challenge(1, BOB)] == [Attest(ALICE, 0)] + [Challenge(1, BOB)];
    assert w1.completions == [Completion(1, ALICE, 0, false, false, None, None)];
    assert IndexOf(w1.completions, 1) == Some(0);
  }

  /** Ruling a challenge upheld. */
  lemma UpheldOnce(w: World, v: Version, params: Params)
    requires v.RequiresReceipts() && |w.completions| == 1 && w.completions[0].id == 1
    requires w.completions[0].agent == ALICE && w.completions[0].challenger == Some(BOB)
    requires w.completions[0].receiptFrom.None?
    ensures
      var w' := Apply(w, v, params, Resolve(1, true));
      && w'.completions == [w.completions[0].(disputed := true)]
      && Agent(w', ALICE).completions == Agent(w, ALICE).completions
      && Agent(w', ALICE).disputes == Agent(w, ALICE).disputes + 1
  {
    assert IndexOf(w.completions, 1) == Some(0);
    var w1 := DisputeSlash(w, v, 1, true);
    assert w1.completions == w.completions && Agent(w1, ALICE).disputes == Agent(w, ALICE).disputes;
    var marked := MarkDisputed(Ensure(w1, BOB), 0);
    assert Apply(w, v, params, Resolve(1, true)) == SettleBond(marked, params, BOB, true);
  }

  /** One completion of Alice's, challenged by Bob and never confirmed. */
  predicate OnlyOne(w: World)
  {
    && |w.completions| == 1 && w.completions[0].id == 1 && w.completions[0].agent == ALICE
    && w.completions[0].challenger == Some(BOB) && w.completions[0].receiptFrom.None?
  }

  lemma UpheldAgain(w: World, v: Version, params: Params)
    requires v.RequiresReceipts() && OnlyOne(w)
    ensures var w' := Apply(w, v, params, Resolve(1, true));
      OnlyOne(w') && Agent(w', ALICE).disputes == Agent(w, ALICE).disputes + 1
  {
    UpheldOnce(w, v, params);
  }

  const RULED_TWICE: seq<Op> := [Attest(ALICE, 0), Challenge(1, BOB), Resolve(1, true), Resolve(1, true)]

  /** One completion, one challenge, ruled upheld twice: two disputes on one completion. */
  lemma SecondRulingCountsAgain(v: Version, params: Params)
    requires v.RequiresReceipts()
    ensures
      var w := Run(EMPTY_WORLD, v, params, RULED_TWICE);
      && |w.completions| == 1 && Agent(w, ALICE).disputes == 2 && !Book(w)
  {
    var ops := RULED_TWICE;
    assert ops[..2] == [Attest(ALICE, 0), Challenge(1, BOB)];
    OneChallenge(v, params);
    assert ops[..3] == ops[..2] + [ops[2]] && ops == ops[..3] + [ops[3]];
    RunOne(v, params, ops[..2], ops[2]);
    RunOne(v, params, ops[..3], ops[3]);
    UpheldAgain(Run(EMPTY_WORLD, v, params, ops[..2]), v, params);
    UpheldAgain(Run(EMPTY_WORLD, v, params, ops[..3]), v, params);
    TooManyDisputes(Run(EMPTY_WORLD, v, params, ops), ALICE);
  }

  lemma TooManyDisputes(w: World, a: Party)
    requires Agent(w, a).disputes > |w.completions|
    ensures !Book(w)
  {
    CountAtMostAll(w.completions, DisputedOf(a));
    assert !RecordExact(Agent(w, a), w.completions, a);
  }

  lemma {:induction false} CountAtMostAll(cs: seq<Completion>, p: Completion -> bool)
    ensures CountIf(cs, p) <= |cs|
  {
    if cs != [] {
      CountAtMostAll(cs[..|cs| - 1], p);
    }
  }

  // ---- a slash that takes a bond ----

  const SLASHED_PAST_STAKE: seq<Op> :=
    [Attest(ALICE, 0), Attest(BOB, 0), Challenge(2, ALICE), Resolve(1, true), Resolve(2, false)]

  const TWO_COMPLETIONS := [Completion(1, ALICE, 0, false, false, None, None),
                            Completion(2, BOB, 0, false, false, None, None)]

  /** Alice and Bob have attested once each; nobody has money in. */
  lemma TwoAttested(params: Params)
    ensures
      var w := Run(EMPTY_WORLD, V05, params, SLASHED_PAST_STAKE[..2]);
      w.completions == TWO_COMPLETIONS && Agent(w, ALICE).lockedWei == 0 && Agent(w, ALICE).slashedWei == 0
  {
    var ops := SLASHED_PAST_STAKE;
    assert ops[..1] == [] + [ops[0]] && ops[..2] == ops[..1] + [ops[1]];
    RunOne(V05, params, [], ops[0]);
    RunOne(V05, params, ops[..1], ops[1]);
    assert Run(EMPTY_WORLD, V05, params, ops[..2]) == Submit(Submit(EMPTY_WORLD, ALICE, 0), BOB, 0);
  }

  /** Alice has no stake, and one bond out against Bob's completion. */
  lemma OneBondOut(w: World, params: Params)
    requires w.completions == TWO_COMPLETIONS && Agent(w, ALICE).lockedWei == 0 && Agent(w, ALICE).slashedWei == 0
    ensures
      var w' := OpenChallenge(w, params, 2, ALICE);
      && BondOut(w')
      && Agent(w', ALICE).lockedWei == params.challengeBondWei && Agent(w', ALICE).slashedWei == 0
  {
    assert IndexOf(w.completions, 2) == Some(1);
  }

  predicate BondOut(w: World)
  {
    && |w.completions| == 2 && w.completions[0].id == 1 && w.completions[1].id == 2
    && w.completions[0].agent == ALICE && w.completions[0].challenger.None?
    && w.completions[1].challenger == Some(ALICE)
  }

  /** v0.5 slashes Alice over a completion that nobody challenged, and takes the bond. */
  lemma BondIsSlashed(w: World, params: Params)
    requires BondOut(w) && Agent(w, ALICE).lockedWei <= SLASH_PER_DISPUTE_WEI
    ensures Apply(w, V05, params, Resolve(1, true)) == SlashStake(w, ALICE, SLASH_PER_DISPUTE_WEI)
    ensures
      var w' := Apply(w, V05, params, Resolve(1, true));
      && w'.completions == w.completions && Agent(w', ALICE).lockedWei == 0
      && Agent(w', ALICE).slashedWei == Agent(w, ALICE).slashedWei + Agent(w, ALICE).lockedWei
  {
    assert IndexOf(w.completions, 1) == Some(0);
  }

  /** When her own challenge is dismissed the bond is forfeited once more. */
  lemma BondIsForfeitedAgain(w: World, h: History, params: Params)
    requires BondOut(w) && Agent(w, ALICE).lockedWei == 0 && params.challengeBondWei > 0
    ensures
      var w' := Apply(w, V05, params, Resolve(2, false));
      Agent(w', ALICE).slashedWei == Agent(w, ALICE).slashedWei + params.challengeBondWei
    ensures !Fair(w, h, V05, params, Resolve(2, false))
  {
    assert IndexOf(w.completions, 2) == Some(1);
    assert Apply(w, V05, params, Resolve(2, false)) == SettleBond(Ensure(w, ALICE), params, ALICE, false);
  }

  /** Alice posts one bond and no stake, and is slashed two bonds. */
  lemma SlashTakesBond(params: Params)
    requires 0 < params.challengeBondWei <= SLASH_PER_DISPUTE_WEI
    ensures
      var w := Run(EMPTY_WORLD, V05, params, SLASHED_PAST_STAKE);
      Agent(w, ALICE).slashedWei == 2 * params.challengeBondWei
    ensures !FairThroughout(V05, params, SLASHED_PAST_STAKE)
    ensures !forall n :: 0 <= n <= |SLASHED_PAST_STAKE| ==> ConservedAt(V05, params, SLASHED_PAST_STAKE, n)
  {
    var ops := SLASHED_PAST_STAKE;
    TwoAttested(params);
    assert ops[..3] == ops[..2] + [ops[2]] && ops[..4] == ops[..3] + [ops[3]] && ops == ops[..4] + [ops[4]];
    RunOne(V05, params, ops[..2], ops[2]);
    RunOne(V05, params, ops[..3], ops[3]);
    RunOne(V05, params, ops[..4], ops[4]);
    OneBondOut(Run(EMPTY_WORLD, V05, params, ops[..2]), params);
    BondIsSlashed(Run(EMPTY_WORLD, V05, params, ops[..3]), params);
    BondIsForfeitedAgain(Run(EMPTY_WORLD, V05, params, ops[..4]), HistoryOf(V05, params, ops[..4]), params);
    ConservedThroughoutIff(V05, params, ops);
  }

  // ---- the decay curves ----

  /** Idle since time -1, long past the horizon: the indexer says 0, the simulator 2. */
  lemma NegativeTimeDiffers()
    ensures IndexedScore(2, 0, -1, 100, 10, 50) == 0 && LinearDecayScore(2, 0, -1, 100, 10, 50) == 2
  {
  }
}
