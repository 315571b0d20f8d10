/** Where every wei of an account went: the simulator's three running totals
    against its deposits, its fees and the fate of each bond it posted. */
module WeiConservation {

  import opened Arithmetic
  import opened Parties
  import opened Mechanism
  import opened Bookkeeping

  /** What an account put in and what its stake lost, summed over the run. */
  datatype Purse = Purse(stakeIn: int, stakeSlashed: int, gas: int)

  /** The run so far: purses, and the verdict each resolved challenge received. */
  datatype History = History(purses: map<Party, Purse>, verdicts: map<nat, bool>)

  function PurseOf(h: History, a: Party): Purse
  {
    if a in h.purses then h.purses[a] else Purse(0, 0, 0)
  }

  function PayGas(h: History, a: Party, gas: nat): History
  {
    h.(purses := h.purses[a := PurseOf(h, a).(gas := PurseOf(h, a).gas + gas)])
  }

  function LoseStake(h: History, a: Party, wei: int): History
  {
    h.(purses := h.purses[a := PurseOf(h, a).(stakeSlashed := PurseOf(h, a).stakeSlashed + wei)])
  }

  function NoteDisputeSlash(w: World, h: History, v: Version, op: Op): History
    requires op.Resolve?
  {
    var found := IndexOf(w.completions, op.completionId);
    if v.V05? && op.upheld && found.Some? then
      var agent := w.completions[found.value].agent;
      LoseStake(h, agent, Min(SLASH_PER_DISPUTE_WEI, Agent(w, agent).lockedWei))
    else h
  }

  function NoteVerdict(w: World, h: History, op: Op): History
    requires op.Resolve?
  {
    var found := IndexOf(w.completions, op.completionId);
    if found.Some? && w.completions[found.value].challenger.Some?
    then h.(verdicts := h.verdicts[op.completionId := op.upheld])
    else h
  }

  /** What one operation adds to the history. */
  function Note(w: World, h: History, v: Version, params: Params, op: Op): History
  {
    match op
    case Attest(agent, now) => PayGas(h, agent, ATTEST_COST)
    case Rate(from, to) => PayGas(h, from, RECEIPT_COST)
    case Challenge(id, challenger) =>
      var found := IndexOf(w.completions, id);
      if found.None? || w.completions[found.value].challenged then h else PayGas(h, challenger, CHALLENGE_COST)
    case Resolve(id, upheld) => NoteVerdict(w, NoteDisputeSlash(w, h, v, op), op)
    case SlashCapability(agent) =>
      var locked := Agent(w, agent).lockedWei;
      LoseStake(h, agent, if v.V05? then locked else Min(params.capabilityBondWei, locked))
    case Deposit(agent, wei, gas) =>
      var u := PurseOf(h, agent);
      h.(purses := h.purses[agent := u.(stakeIn := u.stakeIn + wei, gas := u.gas + gas)])
  }

  function OpenBy(a: Party, verdicts: map<nat, bool>): Completion -> bool
  {
    (c: Completion) => c.challenger == Some(a) && c.id !in verdicts
  }

  function ForfeitedBy(a: Party, verdicts: map<nat, bool>): Completion -> bool
  {
    (c: Completion) => c.challenger == Some(a) && c.id in verdicts && !verdicts[c.id]
  }

  /** locked = stake left + open bonds; slashed = stake lost + forfeited bonds;
      spent = fees + bonds not returned + stake lost. */
  ghost predicate Balanced(r: AgentState, u: Purse, open: nat, forfeited: nat, bond: nat)
  {
    && r.lockedWei == u.stakeIn - u.stakeSlashed + bond * open
    && r.slashedWei == u.stakeSlashed + bond * forfeited
    && r.spentWei == u.gas + bond * open + bond * forfeited + u.stakeSlashed
  }

  ghost predicate PartyBalanced(w: World, h: History, params: Params, a: Party)
  {
    Balanced(Agent(w, a), PurseOf(h, a), CountIf(w.completions, OpenBy(a, h.verdicts)),
             CountIf(w.completions, ForfeitedBy(a, h.verdicts)), params.challengeBondWei)
  }

  /** Challenges and verdicts fit together. */
  ghost predicate ChallengesSound(w: World, h: History)
  {
    && Numbered(w)
    && (forall i :: 0 <= i < |w.completions| ==>
          (w.completions[i].challenged <==> w.completions[i].challenger.Some?))
    && (forall id :: id in h.verdicts ==>
          1 <= id <= |w.completions| && w.completions[id - 1].challenger.Some?)
  }

  predicate NotNegative(r: AgentState)
  {
    r.lockedWei >= 0
  }

  ghost predicate Conserved(w: World, h: History, params: Params)
  {
    && ChallengesSound(w, h) && (forall a :: PartyBalanced(w, h, params, a))
    && forall a :: NotNegative(Agent(w, a))
  }

  /** The guard of the clamp: a first ruling finds the bond still locked. Without a
      bond there is nothing to find. */
  predicate BondAtHand(w: World, h: History, params: Params, c: Completion)
    requires c.challenger.Some?
  {
    params.challengeBondWei == 0
    || (c.id !in h.verdicts && Agent(w, c.challenger.value).lockedWei >= params.challengeBondWei)
  }

  /** What a caller must see to before an operation: that a ruling is the first and
      that the bond is locked once v0.5 has taken its slash. */
  predicate Fair(w: World, h: History, v: Version, params: Params, op: Op)
  {
    op.Resolve? ==>
      var found := IndexOf(w.completions, op.completionId);
      found.Some? && w.completions[found.value].challenger.Some? ==>
        BondAtHand(DisputeSlash(w, v, op.completionId, op.upheld), h, params, w.completions[found.value])
  }

  /** The slash stays within the account's own stake. */
  predicate Covered(w: World, h: History, a: Party, wei: int)
  {
    Min(wei, Agent(w, a).lockedWei) <= PurseOf(h, a).stakeIn - PurseOf(h, a).stakeSlashed
  }

  /** With no open challenge of its own, an account can always be slashed fairly. */
  lemma NoOpenChallengeIsCovered(w: World, h: History, params: Params, a: Party, wei: int)
    requires Conserved(w, h, params)
    requires CountIf(w.completions, OpenBy(a, h.verdicts)) == 0
    ensures Covered(w, h, a, wei)
  {
    assert PartyBalanced(w, h, params, a);
  }

  // ---- one step ----

  /** Slashing alone never loses a wei: it moves what is locked to slashed and spent. */
  lemma SlashStep(w: World, h: History, params: Params, a: Party, wei: int)
    requires Conserved(w, h, params) && wei >= 0
    ensures Conserved(SlashStake(w, a, wei), LoseStake(h, a, Min(wei, Agent(w, a).lockedWei)), params)
  {
    var w' := SlashStake(w, a, wei);
    var h' := LoseStake(h, a, Min(wei, Agent(w, a).lockedWei));
    assert PartyBalanced(w, h, params, a) && NotNegative(Agent(w, a));
    CompletionsUntouchedStep(w, h, w', h', params, a);
  }

  lemma CompletionsUntouchedStep(w: World, h: History, w': World, h': History, params: Params, a: Party)
    requires Conserved(w, h, params)
    requires w'.completions == w.completions && w'.nextCompletionId == w.nextCompletionId
    requires h'.verdicts == h.verdicts
    requires PartyBalanced(w', h', params, a) && NotNegative(Agent(w', a))
    requires forall b :: b != a ==> SameMoney(Agent(w', b), Agent(w, b)) && PurseOf(h', b) == PurseOf(h, b)
    ensures Conserved(w', h', params)
  {
    forall b
      ensures PartyBalanced(w', h', params, b) && NotNegative(Agent(w', b))
    {
      assert PartyBalanced(w, h, params, b) && NotNegative(Agent(w, b));
      assert b != a ==> SameMoney(Agent(w', b), Agent(w, b));
    }
  }

  predicate SameMoney(r: AgentState, s: AgentState)
  {
    r.spentWei == s.spentWei && r.lockedWei == s.lockedWei && r.slashedWei == s.slashedWei
  }

  lemma AttestStep(w: World, h: History, params: Params, agent: Party, now: int)
    requires Conserved(w, h, params)
    ensures Conserved(Submit(w, agent, now), PayGas(h, agent, ATTEST_COST), params)
  {
    var w', h' := Submit(w, agent, now), PayGas(h, agent, ATTEST_COST);
    var c := Completion(w.nextCompletionId, agent, now, false, false, None, None);
    forall a
      ensures PartyBalanced(w', h', params, a) && NotNegative(Agent(w', a))
    {
      assert PartyBalanced(w, h, params, a) && NotNegative(Agent(w, a));
      CountAppend(w.completions, c, OpenBy(a, h.verdicts));
      CountAppend(w.completions, c, ForfeitedBy(a, h.verdicts));
    }
  }

  /** Receipts and disputes do not move bonds. */
  lemma MarksStep(w: World, h: History, w': World, params: Params, i: nat, c: Completion)
    requires Conserved(w, h, params)
    requires i < |w.completions| && w'.completions == w.completions[i := c]
    requires c.id == w.completions[i].id
    requires c.challenged == w.completions[i].challenged && c.challenger == w.completions[i].challenger
    requires w'.nextCompletionId == w.nextCompletionId
    requires forall a :: SameMoney(Agent(w', a), Agent(w, a))
    ensures Conserved(w', h, params)
  {
    forall a
      ensures PartyBalanced(w', h, params, a) && NotNegative(Agent(w', a))
    {
      assert PartyBalanced(w, h, params, a) && NotNegative(Agent(w, a));
      assert SameMoney(Agent(w', a), Agent(w, a));
      CountUpdate(w.completions, i, c, OpenBy(a, h.verdicts));
      CountUpdate(w.completions, i, c, ForfeitedBy(a, h.verdicts));
    }
  }

  lemma FeeStep(w: World, h: History, params: Params, from: Party, to: Party)
    requires Conserved(w, h, params)
    ensures Conserved(Charge(Ensure(Ensure(w, from), to), from, RECEIPT_COST), PayGas(h, from, RECEIPT_COST), params)
  {
    assert PartyBalanced(w, h, params, from) && NotNegative(Agent(w, from));
    CompletionsUntouchedStep(w, h, Charge(Ensure(Ensure(w, from), to), from, RECEIPT_COST),
                             PayGas(h, from, RECEIPT_COST), params, from);
  }

  /** Crediting a confirmation moves no money. */
  lemma ConfirmStep(w: World, h: History, params: Params, from: Party, to: Party)
    requires Conserved(w, h, params)
    ensures Conserved(Confirm(w, from, to), h, params)
  {
    assert PartyBalanced(w, h, params, to) && NotNegative(Agent(w, to));
    CompletionsUntouchedStep(w, h, Confirm(w, from, to), h, params, to);
  }

  lemma RateStep(w: World, h: History, v: Version, params: Params, from: Party, to: Party)
    requires Conserved(w, h, params)
    ensures Conserved(GiveReceipt(w, v, from, to), PayGas(h, from, RECEIPT_COST), params)
  {
    var paid := Charge(Ensure(Ensure(w, from), to), from, RECEIPT_COST);
    var h' := PayGas(h, from, RECEIPT_COST);
    FeeStep(w, h, params, from, to);
    var open := LatestOpen(w.completions, to);
    if !v.RequiresReceipts() {
      ConfirmStep(paid, h', params, from, to);
    } else if open.Some? {
      var i := open.value;
      var c := w.completions[i].(receiptFrom := Some(from));
      var marked := paid.(completions := w.completions[i := c]);
      MarksStep(paid, h', marked, params, i, c);
      ConfirmStep(marked, h', params, from, to);
    }
  }

  lemma PostingBalances(r: AgentState, u: Purse, open: nat, forfeited: nat, bond: nat)
    requires Balanced(r, u, open, forfeited, bond)
    ensures Balanced(r.(spentWei := r.spentWei + CHALLENGE_COST + bond, lockedWei := r.lockedWei + bond),
                     u.(gas := u.gas + CHALLENGE_COST), open + 1, forfeited, bond)
  {
    assert bond * (open + 1) == bond * open + bond;
  }

  /** Opening a challenge locks one more bond of the challenger, and nobody else's. */
  lemma ChallengeBalances(w: World, h: History, params: Params, i: nat, challenger: Party, a: Party)
    requires i < |w.completions| && w.completions[i].challenger.None? && w.completions[i].id !in h.verdicts
    requires PartyBalanced(w, h, params, a)
    requires IndexOf(w.completions, w.completions[i].id) == Some(i) && !w.completions[i].challenged
    ensures PartyBalanced(OpenChallenge(w, params, w.completions[i].id, challenger),
                          PayGas(h, challenger, CHALLENGE_COST), params, a)
  {
    var c := w.completions[i].(challenged := true, challenger := Some(challenger));
    CountUpdate(w.completions, i, c, OpenBy(a, h.verdicts));
    CountUpdate(w.completions, i, c, ForfeitedBy(a, h.verdicts));
    if a == challenger {
      PostingBalances(Agent(w, a), PurseOf(h, a), CountIf(w.completions, OpenBy(a, h.verdicts)),
                      CountIf(w.completions, ForfeitedBy(a, h.verdicts)), params.challengeBondWei);
    }
  }

  lemma ChallengeStep(w: World, h: History, params: Params, id: nat, challenger: Party)
    requires Conserved(w, h, params)
    requires IndexOf(w.completions, id).Some? && !w.completions[IndexOf(w.completions, id).value].challenged
    ensures Conserved(OpenChallenge(w, params, id, challenger), PayGas(h, challenger, CHALLENGE_COST), params)
  {
    var w', h' := OpenChallenge(w, params, id, challenger), PayGas(h, challenger, CHALLENGE_COST);
    var i := IndexOf(w.completions, id).value;
    assert w.completions[i].id == id && id !in h.verdicts;
    forall a
      ensures PartyBalanced(w', h', params, a) && NotNegative(Agent(w', a))
    {
      assert PartyBalanced(w, h, params, a) && NotNegative(Agent(w, a));
      ChallengeBalances(w, h, params, i, challenger, a);
    }
  }

  /** A verdict closes its challenge if that was open, and replaces an earlier verdict if not. */
  lemma {:induction false} VerdictCounts(cs: seq<Completion>, verdicts: map<nat, bool>, i: nat, upheld: bool, a: Party)
    requires i < |cs|
    requires forall j :: 0 <= j < |cs| && j != i ==> cs[j].id != cs[i].id
    ensures
      var after := verdicts[cs[i].id := upheld];
      var mine := if cs[i].challenger == Some(a) then 1 else 0;
      var open := cs[i].id !in verdicts;
      && CountIf(cs, OpenBy(a, after)) == CountIf(cs, OpenBy(a, verdicts)) - (if open then mine else 0)
      && CountIf(cs, ForfeitedBy(a, after))
         == CountIf(cs, ForfeitedBy(a, verdicts)) + (if upheld then 0 else mine)
            - (if open || verdicts[cs[i].id] then 0 else mine)
  {
    var last := |cs| - 1;
    var after := verdicts[cs[i].id := upheld];
    if i == last {
      CountsAgree(cs[..last], OpenBy(a, after), OpenBy(a, verdicts));
      CountsAgree(cs[..last], ForfeitedBy(a, after), ForfeitedBy(a, verdicts));
    } else {
      VerdictCounts(cs[..last], verdicts, i, upheld, a);
    }
  }

  lemma {:induction false} CountsAgree(cs: seq<Completion>, p: Completion -> bool, q: Completion -> bool)
    requires forall j :: 0 <= j < |cs| ==> p(cs[j]) == q(cs[j])
    ensures CountIf(cs, p) == CountIf(cs, q)
  {
    if cs != [] {
      CountsAgree(cs[..|cs| - 1], p, q);
    }
  }

  function Settled(r: AgentState, bond: nat, upheld: bool): AgentState
  {
    var released := r.(lockedWei := Max(0, r.lockedWei - bond));
    if upheld then released.(spentWei := r.spentWei - bond) else released.(slashedWei := r.slashedWei + bond)
  }

  /** A first ruling balances exactly when the bond is there to take. */
  lemma FirstRulingBalances(r: AgentState, u: Purse, open: nat, forfeited: nat, bond: nat, upheld: bool)
    requires Balanced(r, u, open, forfeited, bond) && open >= 1
    ensures Balanced(Settled(r, bond, upheld), u, open - 1, forfeited + (if upheld then 0 else 1), bond)
       <==> r.lockedWei >= bond
  {
    assert bond * open == bond * (open - 1) + bond;
    assert bond * (forfeited + 1) == bond * forfeited + bond;
  }

  /** A second ruling never balances, whatever the first one said. */
  lemma SecondRulingUnbalances(r: AgentState, u: Purse, open: nat, forfeited: nat, bond: nat, upheld: bool, was: bool)
    requires Balanced(r, u, open, forfeited, bond) && bond > 0 && (!was ==> forfeited >= 1)
    ensures !Balanced(Settled(r, bond, upheld), u, open,
                      forfeited + (if upheld then 0 else 1) - (if was then 0 else 1), bond)
  {
    assert bond * (forfeited + 1) == bond * forfeited + bond;
    assert bond * (forfeited - 1) == bond * forfeited - bond;
  }

  /** Open and forfeited challenges after a ruling, given the ruling before it. */
  function OpenAfter(open: nat, ruled: Option<bool>): int
  {
    if ruled.None? then open - 1 else open
  }

  function ForfeitedAfter(forfeited: nat, ruled: Option<bool>, upheld: bool): int
  {
    forfeited + (if upheld then 0 else 1) - (if ruled == Some(false) then 1 else 0)
  }

  lemma RulingBalancesIff(r: AgentState, u: Purse, open: nat, forfeited: nat, bond: nat, upheld: bool,
                          ruled: Option<bool>)
    requires Balanced(r, u, open, forfeited, bond) && r.lockedWei >= 0
    requires (ruled.None? ==> open >= 1) && (ruled == Some(false) ==> forfeited >= 1)
    ensures Balanced(Settled(r, bond, upheld), u, OpenAfter(open, ruled), ForfeitedAfter(forfeited, ruled, upheld),
                     bond)
       <==> bond == 0 || (ruled.None? && r.lockedWei >= bond)
  {
    if ruled.None? {
      FirstRulingBalances(r, u, open, forfeited, bond, upheld);
    } else if bond > 0 {
      SecondRulingUnbalances(r, u, open, forfeited, bond, upheld, ruled.value);
    }
  }

  lemma {:induction false} CountPositive(cs: seq<Completion>, p: Completion -> bool, i: nat)
    requires i < |cs| && p(cs[i])
    ensures CountIf(cs, p) >= 1
  {
    if i < |cs| - 1 {
      CountPositive(cs[..|cs| - 1], p, i);
    }
  }

  /** The challenger's own balance after a ruling. */
  lemma ChallengerBalances(w: World, h: History, params: Params, i: nat, upheld: bool)
    requires Numbered(w) && i < |w.completions| && w.completions[i].challenger.Some?
    requires PartyBalanced(w, h, params, w.completions[i].challenger.value)
    requires NotNegative(Agent(w, w.completions[i].challenger.value))
    ensures
      var c := w.completions[i];
      PartyBalanced(SettleBond(w, params, c.challenger.value, upheld), h.(verdicts := h.verdicts[c.id := upheld]),
                    params, c.challenger.value)
      <==> BondAtHand(w, h, params, c)
  {
    var c := w.completions[i];
    var who := c.challenger.value;
    var open := CountIf(w.completions, OpenBy(who, h.verdicts));
    var forfeited := CountIf(w.completions, ForfeitedBy(who, h.verdicts));
    RulingCounts(w, h, i, upheld);
    SettledRecord(w, params, who, upheld);
    RulingBalancesIff(Agent(w, who), PurseOf(h, who), open, forfeited, params.challengeBondWei, upheld,
                      RuledBefore(h, c.id));
  }

  function RuledBefore(h: History, id: nat): Option<bool>
  {
    if id in h.verdicts then Some(h.verdicts[id]) else None
  }

  lemma SettledRecord(w: World, params: Params, who: Party, upheld: bool)
    ensures var w' := SettleBond(w, params, who, upheld);
      Agent(w', who) == Settled(Agent(w, who), params.challengeBondWei, upheld) && w'.completions == w.completions
  {
  }

  /** What a ruling does to the challenger's open and forfeited challenges. */
  lemma RulingCounts(w: World, h: History, i: nat, upheld: bool)
    requires Numbered(w) && i < |w.completions| && w.completions[i].challenger.Some?
    ensures
      var c := w.completions[i];
      var who, after := c.challenger.value, h.verdicts[c.id := upheld];
      var ruled := RuledBefore(h, c.id);
      var open := CountIf(w.completions, OpenBy(who, h.verdicts));
      var forfeited := CountIf(w.completions, ForfeitedBy(who, h.verdicts));
      && (ruled.None? ==> open >= 1) && (ruled == Some(false) ==> forfeited >= 1)
      && CountIf(w.completions, OpenBy(who, after)) == OpenAfter(open, ruled)
      && CountIf(w.completions, ForfeitedBy(who, after)) == ForfeitedAfter(forfeited, ruled, upheld)
  {
    VerdictCounts(w.completions, h.verdicts, i, upheld, w.completions[i].challenger.value);
    RuledIsCounted(w, h, i);
  }

  /** The challenge ruled on is among the challenger's open or forfeited ones. */
  lemma RuledIsCounted(w: World, h: History, i: nat)
    requires i < |w.completions| && w.completions[i].challenger.Some?
    ensures
      var c := w.completions[i];
      var who := c.challenger.value;
      && (c.id !in h.verdicts ==> CountIf(w.completions, OpenBy(who, h.verdicts)) >= 1)
      && (c.id in h.verdicts && !h.verdicts[c.id] ==> CountIf(w.completions, ForfeitedBy(who, h.verdicts)) >= 1)
  {
    var c := w.completions[i];
    if c.id !in h.verdicts {
      CountPositive(w.completions, OpenBy(c.challenger.value, h.verdicts), i);
    } else if !h.verdicts[c.id] {
      CountPositive(w.completions, ForfeitedBy(c.challenger.value, h.verdicts), i);
    }
  }

  lemma OthersStayBalanced(w: World, h: History, params: Params, i: nat, upheld: bool, a: Party)
    requires Numbered(w) && i < |w.completions| && w.completions[i].challenger.Some?
    requires PartyBalanced(w, h, params, a) && a != w.completions[i].challenger.value
    ensures PartyBalanced(SettleBond(w, params, w.completions[i].challenger.value, upheld),
                          h.(verdicts := h.verdicts[w.completions[i].id := upheld]), params, a)
  {
    VerdictCounts(w.completions, h.verdicts, i, upheld, a);
  }

  /** Settling a bond keeps the balance if and only if the ruling is the first and
      the bond is still locked, so that the clamp at zero takes nothing away. */
  lemma SettleIff(w: World, h: History, params: Params, i: nat, upheld: bool)
    requires Conserved(w, h, params) && i < |w.completions| && w.completions[i].challenger.Some?
    ensures
      Conserved(SettleBond(w, params, w.completions[i].challenger.value, upheld),
                h.(verdicts := h.verdicts[w.completions[i].id := upheld]), params)
      <==> BondAtHand(w, h, params, w.completions[i])
  {
    var who := w.completions[i].challenger.value;
    var w', h' := SettleBond(w, params, who, upheld), h.(verdicts := h.verdicts[w.completions[i].id := upheld]);
    assert PartyBalanced(w, h, params, who) && NotNegative(Agent(w, who));
    ChallengerBalances(w, h, params, i, upheld);
    forall a | a != who
      ensures PartyBalanced(w', h', params, a) && NotNegative(Agent(w', a))
    {
      assert PartyBalanced(w, h, params, a) && NotNegative(Agent(w, a));
      OthersStayBalanced(w, h, params, i, upheld, a);
    }
  }

  lemma CloseIff(w: World, h: History, params: Params, id: nat, upheld: bool)
    requires Conserved(w, h, params) && 1 <= id <= |w.completions| && w.completions[id - 1].challenger.Some?
    ensures Conserved(CloseChallenge(w, params, id, upheld), h.(verdicts := h.verdicts[id := upheld]), params)
       <==> BondAtHand(w, h, params, w.completions[id - 1])
  {
    IndexIsId(w, id);
    var i := id - 1;
    var who := w.completions[i].challenger.value;
    var touched := Ensure(w, who);
    assert PartyBalanced(w, h, params, who) && NotNegative(Agent(w, who));
    CompletionsUntouchedStep(w, h, touched, h, params, who);
    if upheld {
      var marked := MarkDisputed(touched, i);
      assert forall a :: SameMoney(Agent(marked, a), Agent(touched, a));
      MarksStep(touched, h, marked, params, i, w.completions[i].(disputed := true));
      SettleIff(marked, h, params, i, upheld);
    } else {
      SettleIff(touched, h, params, i, upheld);
    }
  }

  lemma ResolveIff(w: World, h: History, v: Version, params: Params, op: Op)
    requires Conserved(w, h, params) && op.Resolve?
    ensures Conserved(Apply(w, v, params, op), Note(w, h, v, params, op), params) <==> Fair(w, h, v, params, op)
  {
    var id := op.completionId;
    IndexIsId(w, id);
    var w1 := DisputeSlash(w, v, id, op.upheld);
    var h1 := NoteDisputeSlash(w, h, v, op);
    if v.V05? && op.upheld && 1 <= id <= |w.completions| {
      SlashStep(w, h, params, w.completions[id - 1].agent, SLASH_PER_DISPUTE_WEI);
    }
    assert Conserved(w1, h1, params) && h1.verdicts == h.verdicts;
    if 1 <= id <= |w.completions| && w.completions[id - 1].challenger.Some? {
      CloseIff(w1, h1, params, id, op.upheld);
    }
  }

  lemma DepositStep(w: World, h: History, v: Version, params: Params, op: Op)
    requires Conserved(w, h, params) && op.Deposit?
    ensures Conserved(Apply(w, v, params, op), Note(w, h, v, params, op), params)
  {
    assert PartyBalanced(w, h, params, op.agent) && NotNegative(Agent(w, op.agent));
    CompletionsUntouchedStep(w, h, Apply(w, v, params, op), Note(w, h, v, params, op), params, op.agent);
  }

  /** One operation keeps every account's balance if and only if it is fair. */
  lemma ConservedStepIff(w: World, h: History, v: Version, params: Params, op: Op)
    requires Conserved(w, h, params)
    ensures Conserved(Apply(w, v, params, op), Note(w, h, v, params, op), params) <==> Fair(w, h, v, params, op)
  {
    match op {
      case Attest(agent, now) => AttestStep(w, h, params, agent, now);
      case Rate(from, to) => RateStep(w, h, v, params, from, to);
      case Challenge(id, challenger) =>
        if IndexOf(w.completions, id).Some? && !w.completions[IndexOf(w.completions, id).value].challenged {
          ChallengeStep(w, h, params, id, challenger);
        }
      case Resolve(id, upheld) => ResolveIff(w, h, v, params, op);
      case SlashCapability(agent) =>
        assert NotNegative(Agent(w, agent));
        SlashStep(w, h, params, agent, Slashable(w, v, params, agent));
      case Deposit(agent, wei, gas) => DepositStep(w, h, v, params, op);
    }
  }

  // ---- every run ----

  function HistoryOf(v: Version, params: Params, ops: seq<Op>): History
  {
    if ops == [] then History(map[], map[])
    else
      var before := ops[..|ops| - 1];
      Note(Run(EMPTY_WORLD, v, params, before), HistoryOf(v, params, before), v, params, ops[|ops| - 1])
  }

  predicate FairThroughout(v: Version, params: Params, ops: seq<Op>)
  {
    forall n :: 0 <= n < |ops| ==>
      Fair(Run(EMPTY_WORLD, v, params, ops[..n]), HistoryOf(v, params, ops[..n]), v, params, ops[n])
  }

  /** In every fair run no wei of any account is lost or invented. */
  lemma {:induction false} WeiConservedInEveryRun(v: Version, params: Params, ops: seq<Op>)
    requires FairThroughout(v, params, ops)
    ensures Conserved(Run(EMPTY_WORLD, v, params, ops), HistoryOf(v, params, ops), params)
  {
    if ops != [] {
      var n := |ops| - 1;
      assert forall m :: 0 <= m < n ==> ops[..n][..m] == ops[..m];
      WeiConservedInEveryRun(v, params, ops[..n]);
      ConservedStepIff(Run(EMPTY_WORLD, v, params, ops[..n]), HistoryOf(v, params, ops[..n]), v, params, ops[n]);
    }
  }

  ghost predicate ConservedAt(v: Version, params: Params, ops: seq<Op>, n: nat)
    requires n <= |ops|
  {
    Conserved(Run(EMPTY_WORLD, v, params, ops[..n]), HistoryOf(v, params, ops[..n]), params)
  }

  /** The balance holds after every step of a run if and only if every ruling in it is
      the first on its challenge and finds the bond locked. */
  lemma ConservedThroughoutIff(v: Version, params: Params, ops: seq<Op>)
    ensures (forall n :: 0 <= n <= |ops| ==> ConservedAt(v, params, ops, n)) <==> FairThroughout(v, params, ops)
  {
    if FairThroughout(v, params, ops) {
      forall n | 0 <= n <= |ops|
        ensures ConservedAt(v, params, ops, n)
      {
        assert forall m :: 0 <= m < n ==> ops[..n][..m] == ops[..m];
        WeiConservedInEveryRun(v, params, ops[..n]);
      }
    }
    if forall n :: 0 <= n <= |ops| ==> ConservedAt(v, params, ops, n) {
      forall n | 0 <= n < |ops|
        ensures Fair(Run(EMPTY_WORLD, v, params, ops[..n]), HistoryOf(v, params, ops[..n]), v, params, ops[n])
      {
        assert ConservedAt(v, params, ops, n) && ConservedAt(v, params, ops, n + 1);
        ConservedTwiceIsFair(v, params, ops, n);
      }
    }
  }

  lemma ConservedTwiceIsFair(v: Version, params: Params, ops: seq<Op>, n: nat)
    requires n < |ops| && ConservedAt(v, params, ops, n) && ConservedAt(v, params, ops, n + 1)
    ensures Fair(Run(EMPTY_WORLD, v, params, ops[..n]), HistoryOf(v, params, ops[..n]), v, params, ops[n])
  {
    assert ops[..n + 1][..n] == ops[..n];
    ConservedStepIff(Run(EMPTY_WORLD, v, params, ops[..n]), HistoryOf(v, params, ops[..n]), v, params, ops[n]);
  }

  // ---- a simple way to be fair ----

  /** The account has lost no more stake than it put in. */
  predicate SolventAt(h: History, a: Party)
  {
    PurseOf(h, a).stakeSlashed <= PurseOf(h, a).stakeIn
  }

  ghost predicate Solvent(h: History)
  {
    forall a :: SolventAt(h, a)
  }

  lemma OnePurse(h: History, a: Party, u: Purse)
    requires Solvent(h) && u.stakeSlashed <= u.stakeIn
    ensures Solvent(h.(purses := h.purses[a := u]))
  {
    var h' := h.(purses := h.purses[a := u]);
    forall b
      ensures SolventAt(h', b)
    {
      assert SolventAt(h, b);
    }
  }

  lemma SlashedIsSolvent(w: World, h: History, a: Party, wei: int)
    requires Solvent(h) && Covered(w, h, a, wei)
    ensures Solvent(LoseStake(h, a, Min(wei, Agent(w, a).lockedWei)))
  {
    var u := PurseOf(h, a);
    OnePurse(h, a, u.(stakeSlashed := u.stakeSlashed + Min(wei, Agent(w, a).lockedWei)));
  }

  lemma GasIsSolvent(h: History, a: Party, gas: nat)
    requires Solvent(h)
    ensures Solvent(PayGas(h, a, gas))
  {
    assert SolventAt(h, a);
    OnePurse(h, a, PurseOf(h, a).(gas := PurseOf(h, a).gas + gas));
  }

  lemma VerdictIsSolvent(h: History, id: nat, upheld: bool)
    requires Solvent(h)
    ensures Solvent(h.(verdicts := h.verdicts[id := upheld]))
  {
    var h' := h.(verdicts := h.verdicts[id := upheld]);
    forall a
      ensures SolventAt(h', a)
    {
      assert SolventAt(h, a);
    }
  }

  /** A challenge is ruled on once, and no slash reaches past the stake. */
  predicate WithinStake(w: World, h: History, v: Version, params: Params, op: Op)
  {
    match op
    case Resolve(id, upheld) =>
      var found := IndexOf(w.completions, id);
      found.Some? ==>
        && (w.completions[found.value].challenger.Some? ==> id !in h.verdicts)
        && (v.V05? && upheld ==> Covered(w, h, w.completions[found.value].agent, SLASH_PER_DISPUTE_WEI))
    case SlashCapability(agent) => Covered(w, h, agent, Slashable(w, v, params, agent))
    case _ => true
  }

  /** While slashes stay within stakes, every open bond stays locked, so every first ruling is fair. */
  lemma WithinStakeIsFair(w: World, h: History, v: Version, params: Params, op: Op)
    requires Conserved(w, h, params) && Solvent(h) && WithinStake(w, h, v, params, op)
    ensures Fair(w, h, v, params, op)
  {
    if op.Resolve? {
      var id := op.completionId;
      IndexIsId(w, id);
      RulingWithinStake(w, h, v, params, op);
      if 1 <= id <= |w.completions| && w.completions[id - 1].challenger.Some? {
        OpenBondIsLocked(DisputeSlash(w, v, id, op.upheld), NoteDisputeSlash(w, h, v, op), params, id - 1);
      }
    }
  }

  lemma RulingWithinStake(w: World, h: History, v: Version, params: Params, op: Op)
    requires op.Resolve? && Conserved(w, h, params) && Solvent(h) && WithinStake(w, h, v, params, op)
    ensures Conserved(DisputeSlash(w, v, op.completionId, op.upheld), NoteDisputeSlash(w, h, v, op), params)
    ensures Solvent(NoteDisputeSlash(w, h, v, op)) && NoteDisputeSlash(w, h, v, op).verdicts == h.verdicts
  {
    var found := IndexOf(w.completions, op.completionId);
    if v.V05? && op.upheld && found.Some? {
      SlashStep(w, h, params, w.completions[found.value].agent, SLASH_PER_DISPUTE_WEI);
      SlashedIsSolvent(w, h, w.completions[found.value].agent, SLASH_PER_DISPUTE_WEI);
    }
  }

  lemma WithinStakeStaysSolvent(w: World, h: History, v: Version, params: Params, op: Op)
    requires Conserved(w, h, params) && Solvent(h) && WithinStake(w, h, v, params, op)
    ensures Solvent(Note(w, h, v, params, op))
  {
    match op {
      case Attest(agent, now) => GasIsSolvent(h, agent, ATTEST_COST);
      case Rate(from, to) => GasIsSolvent(h, from, RECEIPT_COST);
      case Challenge(id, challenger) => GasIsSolvent(h, challenger, CHALLENGE_COST);
      case Resolve(id, upheld) =>
        RulingWithinStake(w, h, v, params, op);
        VerdictIsSolvent(NoteDisputeSlash(w, h, v, op), id, upheld);
      case SlashCapability(agent) => SlashedIsSolvent(w, h, agent, Slashable(w, v, params, agent));
      case Deposit(agent, wei, gas) =>
        assert SolventAt(h, agent);
        var u := PurseOf(h, agent);
        OnePurse(h, agent, u.(stakeIn := u.stakeIn + wei, gas := u.gas + gas));
    }
  }

  lemma OpenBondIsLocked(w: World, h: History, params: Params, i: nat)
    requires Conserved(w, h, params) && Solvent(h)
    requires i < |w.completions| && w.completions[i].challenger.Some? && w.completions[i].id !in h.verdicts
    ensures BondAtHand(w, h, params, w.completions[i])
  {
    var who := w.completions[i].challenger.value;
    assert PartyBalanced(w, h, params, who) && SolventAt(h, who);
    assert OpenBy(who, h.verdicts)(w.completions[i]);
    CountPositive(w.completions, OpenBy(who, h.verdicts), i);
    var open := CountIf(w.completions, OpenBy(who, h.verdicts));
    assert params.challengeBondWei * open == params.challengeBondWei * (open - 1) + params.challengeBondWei;
  }

  predicate WithinStakeThroughout(v: Version, params: Params, ops: seq<Op>)
  {
    forall n :: 0 <= n < |ops| ==>
      WithinStake(Run(EMPTY_WORLD, v, params, ops[..n]), HistoryOf(v, params, ops[..n]), v, params, ops[n])
  }

  /** Runs with single rulings and slashes within the stake lose nothing. */
  lemma {:induction false} WithinStakeConserves(v: Version, params: Params, ops: seq<Op>)
    requires WithinStakeThroughout(v, params, ops)
    ensures Conserved(Run(EMPTY_WORLD, v, params, ops), HistoryOf(v, params, ops), params)
    ensures Solvent(HistoryOf(v, params, ops))
  {
    if ops != [] {
      var n := |ops| - 1;
      var w, h := Run(EMPTY_WORLD, v, params, ops[..n]), HistoryOf(v, params, ops[..n]);
      assert forall m :: 0 <= m < n ==> ops[..n][..m] == ops[..m];
      WithinStakeConserves(v, params, ops[..n]);
      WithinStakeIsFair(w, h, v, params, ops[n]);
      WithinStakeStaysSolvent(w, h, v, params, ops[n]);
      ConservedStepIff(w, h, v, params, ops[n]);
    }
  }
}
