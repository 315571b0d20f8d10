/** The denormalised per-agent counters against a direct count over the list of
    completions, in every state a run can reach. */
module Bookkeeping {

  import opened Parties
  import opened Decay
  import opened Mechanism

  // ---- counting completions ----

  ghost function CountIf(cs: seq<Completion>, p: Completion -> bool): nat
  {
    if cs == [] then 0
    else CountIf(cs[..|cs| - 1], p) + (if p(cs[|cs| - 1]) then 1 else 0)
  }

  lemma CountAppend(cs: seq<Completion>, c: Completion, p: Completion -> bool)
    ensures CountIf(cs + [c], p) == CountIf(cs, p) + (if p(c) then 1 else 0)
  {
    assert (cs + [c])[..|cs|] == cs;
  }

  lemma {:induction false} CountUpdate(cs: seq<Completion>, i: nat, c: Completion, p: Completion -> bool)
    requires i < |cs|
    ensures CountIf(cs[i := c], p) == CountIf(cs, p) - (if p(cs[i]) then 1 else 0) + (if p(c) then 1 else 0)
  {
    var last := |cs| - 1;
    if i == last {
      assert cs[i := c][..last] == cs[..last];
    } else {
      CountUpdate(cs[..last], i, c, p);
      assert cs[i := c][..last] == cs[..last][i := c];
    }
  }

  lemma {:induction false} CountDisjoint(cs: seq<Completion>, p: Completion -> bool, q: Completion -> bool,
                                         r: Completion -> bool)
    requires forall c :: !(p(c) && q(c)) && (p(c) || q(c) ==> r(c))
    ensures CountIf(cs, p) + CountIf(cs, q) <= CountIf(cs, r)
  {
    if cs != [] {
      CountDisjoint(cs[..|cs| - 1], p, q, r);
    }
  }

  lemma {:induction false} CountNone(cs: seq<Completion>, p: Completion -> bool)
    ensures CountIf(cs, p) == 0 <==> forall i :: 0 <= i < |cs| ==> !p(cs[i])
  {
    if cs != [] {
      CountNone(cs[..|cs| - 1], p);
    }
  }

  function SubmittedBy(a: Party): Completion -> bool
  {
    (c: Completion) => c.agent == a
  }

  function DisputedOf(a: Party): Completion -> bool
  {
    (c: Completion) => c.agent == a && c.disputed
  }

  function ConfirmedOf(a: Party): Completion -> bool
  {
    (c: Completion) => c.agent == a && !c.disputed && c.receiptFrom.Some?
  }

  function ConfirmedFor(a: Party, f: Party): Completion -> bool
  {
    (c: Completion) => c.agent == a && !c.disputed && c.receiptFrom == Some(f)
  }

  // ---- the invariant ----

  /** Ids run 1, 2, 3, ... in list order. */
  ghost predicate Numbered(w: World)
  {
    && w.nextCompletionId == |w.completions| + 1
    && forall i :: 0 <= i < |w.completions| ==> w.completions[i].id == i + 1
  }

  lemma IndexIsId(w: World, id: nat)
    requires Numbered(w)
    ensures IndexOf(w.completions, id) == if 1 <= id <= |w.completions| then Some((id - 1) as nat) else None
  {
    var found := IndexOf(w.completions, id);
    if 1 <= id <= |w.completions| {
      assert w.completions[id - 1].id == id;
    }
  }

  /** The confirmation table counts exactly the undisputed receipts, per counterparty and in total. */
  ghost predicate ConfirmationsExact(r: AgentState, cs: seq<Completion>, a: Party)
  {
    && r.raters == r.confirmations.Keys
    && (forall f :: f in r.confirmations ==> r.confirmations[f] >= 1)
    && (forall f :: Times(r.confirmations, f) == CountIf(cs, ConfirmedFor(a, f)))
    && SumMap(r.confirmations) == CountIf(cs, ConfirmedOf(a))
  }

  ghost predicate RecordExact(r: AgentState, cs: seq<Completion>, a: Party)
  {
    && r.completions == CountIf(cs, SubmittedBy(a))
    && r.disputes == CountIf(cs, DisputedOf(a))
    && ConfirmationsExact(r, cs, a)
  }

  ghost predicate Book(w: World)
  {
    Numbered(w) && forall a :: RecordExact(Agent(w, a), w.completions, a)
  }

  /** The one thing a caller must not do: uphold a dispute twice. */
  predicate DisputesOnce(w: World, op: Op)
  {
    op.Resolve? && op.upheld ==>
      var found := IndexOf(w.completions, op.completionId);
      found.Some? && w.completions[found.value].challenger.Some? ==> !w.completions[found.value].disputed
  }

  predicate DisputesOnceThroughout(v: Version, params: Params, ops: seq<Op>)
  {
    forall n :: 0 <= n < |ops| ==> DisputesOnce(Run(EMPTY_WORLD, v, params, ops[..n]), ops[n])
  }

  /** Two records that differ at most in money. */
  predicate SameCredit(r: AgentState, s: AgentState)
  {
    && r.completions == s.completions && r.disputes == s.disputes
    && r.confirmations == s.confirmations && r.raters == s.raters
  }

  // ---- one step ----

  lemma CountsAppend(cs: seq<Completion>, c: Completion, a: Party)
    requires !c.disputed && c.receiptFrom.None?
    ensures CountIf(cs + [c], SubmittedBy(a)) == CountIf(cs, SubmittedBy(a)) + (if c.agent == a then 1 else 0)
    ensures CountIf(cs + [c], DisputedOf(a)) == CountIf(cs, DisputedOf(a))
    ensures CountIf(cs + [c], ConfirmedOf(a)) == CountIf(cs, ConfirmedOf(a))
    ensures forall f :: CountIf(cs + [c], ConfirmedFor(a, f)) == CountIf(cs, ConfirmedFor(a, f))
  {
    CountAppend(cs, c, SubmittedBy(a));
    CountAppend(cs, c, DisputedOf(a));
    CountAppend(cs, c, ConfirmedOf(a));
    forall f {
      CountAppend(cs, c, ConfirmedFor(a, f));
    }
  }

  /** Marking a challenge changes no count. */
  lemma CountsIgnoreChallenge(cs: seq<Completion>, i: nat, c: Completion, a: Party)
    requires i < |cs|
    requires c.agent == cs[i].agent && c.disputed == cs[i].disputed && c.receiptFrom == cs[i].receiptFrom
    ensures CountIf(cs[i := c], SubmittedBy(a)) == CountIf(cs, SubmittedBy(a))
    ensures CountIf(cs[i := c], DisputedOf(a)) == CountIf(cs, DisputedOf(a))
    ensures CountIf(cs[i := c], ConfirmedOf(a)) == CountIf(cs, ConfirmedOf(a))
    ensures forall f :: CountIf(cs[i := c], ConfirmedFor(a, f)) == CountIf(cs, ConfirmedFor(a, f))
  {
    CountUpdate(cs, i, c, SubmittedBy(a));
    CountUpdate(cs, i, c, DisputedOf(a));
    CountUpdate(cs, i, c, ConfirmedOf(a));
    forall f {
      CountUpdate(cs, i, c, ConfirmedFor(a, f));
    }
  }

  lemma ReceiptKeepsExact(r: AgentState, cs: seq<Completion>, i: nat, from: Party, a: Party)
    requires i < |cs| && Open(cs[i], cs[i].agent)
    requires RecordExact(r, cs, a)
    ensures
      var cs' := cs[i := cs[i].(receiptFrom := Some(from))];
      var r' := if a != cs[i].agent then r
                else r.(confirmations := r.confirmations[from := Times(r.confirmations, from) + 1],
                        raters := r.raters + {from});
      RecordExact(r', cs', a)
  {
    var c := cs[i].(receiptFrom := Some(from));
    CountUpdate(cs, i, c, SubmittedBy(a));
    CountUpdate(cs, i, c, DisputedOf(a));
    CountUpdate(cs, i, c, ConfirmedOf(a));
    forall f
      ensures CountIf(cs[i := c], ConfirmedFor(a, f))
           == CountIf(cs, ConfirmedFor(a, f)) + (if a == c.agent && f == from then 1 else 0)
    {
      CountUpdate(cs, i, c, ConfirmedFor(a, f));
    }
    SumUpdate(r.confirmations, from, Times(r.confirmations, from) + 1);
  }

  lemma RemovalExact(r: AgentState, f: Party)
    requires r.raters == r.confirmations.Keys
    requires forall g :: g in r.confirmations ==> r.confirmations[g] >= 1
    requires f in r.confirmations
    ensures
      var s := RemoveConfirmation(r, f);
      && s.completions == r.completions && s.disputes == r.disputes
      && s.raters == s.confirmations.Keys
      && (forall g :: g in s.confirmations ==> s.confirmations[g] >= 1)
      && (forall g :: Times(s.confirmations, g) == Times(r.confirmations, g) - (if g == f then 1 else 0))
      && SumMap(s.confirmations) == SumMap(r.confirmations) - 1
  {
    if r.confirmations[f] <= 1 {
      SumPick(r.confirmations, f);
    } else {
      SumUpdate(r.confirmations, f, r.confirmations[f] - 1);
    }
  }

  lemma DisputeKeepsExact(r: AgentState, cs: seq<Completion>, i: nat, a: Party)
    requires i < |cs| && !cs[i].disputed
    requires RecordExact(r, cs, a)
    ensures
      var cs' := cs[i := cs[i].(disputed := true)];
      var r' := if a != cs[i].agent then r else RecordDispute(r, cs[i].receiptFrom);
      RecordExact(r', cs', a)
  {
    var c := cs[i].(disputed := true);
    CountUpdate(cs, i, c, SubmittedBy(a));
    CountUpdate(cs, i, c, DisputedOf(a));
    CountUpdate(cs, i, c, ConfirmedOf(a));
    forall f
      ensures CountIf(cs[i := c], ConfirmedFor(a, f))
           == CountIf(cs, ConfirmedFor(a, f)) - (if a == c.agent && c.receiptFrom == Some(f) then 1 else 0)
    {
      CountUpdate(cs, i, c, ConfirmedFor(a, f));
    }
    if a == c.agent && c.receiptFrom.Some? {
      var f := c.receiptFrom.value;
      assert Times(r.confirmations, f) == CountIf(cs, ConfirmedFor(a, f));
      RemovalExact(r.(disputes := r.disputes + 1), f);
    }
  }

  /** Upholding a dispute that was already upheld leaves the dispute counter one too high. */
  lemma SecondDisputeBreaks(r: AgentState, cs: seq<Completion>, i: nat)
    requires i < |cs| && cs[i].disputed
    requires RecordExact(r, cs, cs[i].agent)
    ensures !RecordExact(RecordDispute(r, cs[i].receiptFrom), cs[i := cs[i].(disputed := true)], cs[i].agent)
  {
    assert cs[i := cs[i].(disputed := true)] == cs;
  }

  lemma SameCreditExact(r: AgentState, s: AgentState, cs: seq<Completion>, a: Party)
    requires SameCredit(r, s)
    ensures RecordExact(r, cs, a) <==> RecordExact(s, cs, a)
  {
  }

  lemma AttestKeepsBook(w: World, agent: Party, now: int)
    requires Book(w)
    ensures Book(Submit(w, agent, now))
  {
    var w' := Submit(w, agent, now);
    var c := Completion(w.nextCompletionId, agent, now, false, false, None, None);
    forall a
      ensures RecordExact(Agent(w', a), w'.completions, a)
    {
      assert RecordExact(Agent(w, a), w.completions, a);
      CountsAppend(w.completions, c, a);
    }
  }

  lemma ReceiptKeepsBook(w: World, i: nat, from: Party, to: Party)
    requires Book(w) && i < |w.completions| && Open(w.completions[i], to)
    ensures Book(Confirm(w.(completions := w.completions[i := w.completions[i].(receiptFrom := Some(from))]), from, to))
  {
    var w' := Confirm(w.(completions := w.completions[i := w.completions[i].(receiptFrom := Some(from))]), from, to);
    forall a
      ensures RecordExact(Agent(w', a), w'.completions, a)
    {
      assert RecordExact(Agent(w, a), w.completions, a);
      ReceiptKeepsExact(Agent(w, a), w.completions, i, from, a);
    }
  }

  lemma RateKeepsBook(w: World, v: Version, from: Party, to: Party)
    requires v.RequiresReceipts() && Book(w)
    ensures Book(GiveReceipt(w, v, from, to))
  {
    var paid := Charge(Ensure(Ensure(w, from), to), from, RECEIPT_COST);
    MoneyKeepsBook(w, paid);
    var open := LatestOpen(w.completions, to);
    if open.Some? {
      ReceiptKeepsBook(paid, open.value, from, to);
    }
  }

  lemma ChallengeKeepsBook(w: World, params: Params, id: nat, challenger: Party)
    requires Book(w)
    ensures Book(OpenChallenge(w, params, id, challenger))
  {
    var w' := OpenChallenge(w, params, id, challenger);
    var found := IndexOf(w.completions, id);
    if found.Some? && !w.completions[found.value].challenged {
      forall a
        ensures RecordExact(Agent(w', a), w'.completions, a)
      {
        assert RecordExact(Agent(w, a), w.completions, a);
        var c := w.completions[found.value].(challenged := true, challenger := Some(challenger));
        CountsIgnoreChallenge(w.completions, found.value, c, a);
        SameCreditExact(Agent(w, a), Agent(w', a), w'.completions, a);
      }
    }
  }

  /** Moving only money keeps the books. */
  lemma MoneyKeepsBook(w: World, w': World)
    requires Book(w)
    requires w'.completions == w.completions && w'.nextCompletionId == w.nextCompletionId
    requires forall a :: SameCredit(Agent(w', a), Agent(w, a))
    ensures Book(w')
  {
    forall a
      ensures RecordExact(Agent(w', a), w'.completions, a)
    {
      assert RecordExact(Agent(w, a), w.completions, a);
      assert SameCredit(Agent(w', a), Agent(w, a));
      SameCreditExact(Agent(w', a), Agent(w, a), w.completions, a);
    }
  }

  lemma DisputeStep(w: World, i: nat)
    requires Book(w) && i < |w.completions|
    ensures Book(MarkDisputed(w, i)) <==> !w.completions[i].disputed
  {
    var w' := MarkDisputed(w, i);
    var who := w.completions[i].agent;
    if !w.completions[i].disputed {
      forall a
        ensures RecordExact(Agent(w', a), w'.completions, a)
      {
        assert RecordExact(Agent(w, a), w.completions, a);
        DisputeKeepsExact(Agent(w, a), w.completions, i, a);
      }
    } else {
      assert RecordExact(Agent(w, who), w.completions, who);
      SecondDisputeBreaks(Agent(w, who), w.completions, i);
      assert !RecordExact(Agent(w', who), w'.completions, who);
    }
  }

  // ---- steps that move only money ----

  /** `w'` differs from `w` in money alone. */
  ghost predicate MoneyMoved(w: World, w': World)
  {
    && w'.completions == w.completions && w'.nextCompletionId == w.nextCompletionId
    && forall a :: SameCredit(Agent(w', a), Agent(w, a))
  }

  lemma SettleMovesMoney(w: World, params: Params, who: Party, upheld: bool)
    ensures MoneyMoved(w, SettleBond(w, params, who, upheld))
  {
  }

  lemma DisputeSlashMovesMoney(w: World, v: Version, id: nat, upheld: bool)
    ensures MoneyMoved(w, DisputeSlash(w, v, id, upheld))
  {
  }

  lemma TouchMovesMoney(w: World, p: Party)
    ensures MoneyMoved(w, Ensure(w, p))
  {
  }

  lemma MoneyStep(w: World, w': World)
    requires MoneyMoved(w, w')
    ensures Book(w') <==> Book(w)
  {
    if Book(w) {
      MoneyKeepsBook(w, w');
    }
    if Book(w') {
      MoneyKeepsBook(w', w);
    }
  }

  lemma CloseStep(w: World, params: Params, id: nat, upheld: bool)
    requires Book(w)
    ensures Book(CloseChallenge(w, params, id, upheld)) <==> DisputesOnce(w, Resolve(id, upheld))
  {
    var found := IndexOf(w.completions, id);
    if found.Some? && w.completions[found.value].challenger.Some? {
      var who := w.completions[found.value].challenger.value;
      var touched := Ensure(w, who);
      TouchMovesMoney(w, who);
      MoneyStep(w, touched);
      if upheld {
        DisputeStep(touched, found.value);
      }
      var marked := if upheld then MarkDisputed(touched, found.value) else touched;
      SettleMovesMoney(marked, params, who, upheld);
      MoneyStep(marked, SettleBond(marked, params, who, upheld));
    }
  }

  lemma ResolveStep(w: World, v: Version, params: Params, id: nat, upheld: bool)
    requires Book(w)
    ensures Book(Apply(w, v, params, Resolve(id, upheld))) <==> DisputesOnce(w, Resolve(id, upheld))
  {
    DisputeSlashMovesMoney(w, v, id, upheld);
    MoneyStep(w, DisputeSlash(w, v, id, upheld));
    CloseStep(DisputeSlash(w, v, id, upheld), params, id, upheld);
  }

  /** One step keeps the books exactly when it does not uphold a dispute twice. */
  lemma BookStep(w: World, v: Version, params: Params, op: Op)
    requires v.RequiresReceipts() && Book(w)
    ensures Book(Apply(w, v, params, op)) <==> DisputesOnce(w, op)
  {
    match op {
      case Attest(agent, now) => AttestKeepsBook(w, agent, now);
      case Rate(from, to) => RateKeepsBook(w, v, from, to);
      case Challenge(id, challenger) => ChallengeKeepsBook(w, params, id, challenger);
      case Resolve(id, upheld) => ResolveStep(w, v, params, id, upheld);
      case SlashCapability(agent) => MoneyKeepsBook(w, Apply(w, v, params, op));
      case Deposit(agent, wei, gas) => MoneyKeepsBook(w, Apply(w, v, params, op));
    }
  }

  // ---- every reachable state ----

  lemma {:induction false} BookRun(v: Version, params: Params, ops: seq<Op>)
    requires v.RequiresReceipts() && DisputesOnceThroughout(v, params, ops)
    ensures Book(Run(EMPTY_WORLD, v, params, ops))
  {
    if ops == [] {
      assert forall a, f :: Times(Agent(EMPTY_WORLD, a).confirmations, f) == 0;
    } else {
      var n := |ops| - 1;
      assert forall m :: 0 <= m < n ==> ops[..n][..m] == ops[..m];
      BookRun(v, params, ops[..n]);
      BookStep(Run(EMPTY_WORLD, v, params, ops[..n]), v, params, ops[n]);
    }
  }

  /** Distinct counterparties <= confirmed completions <= completions - disputes. */
  lemma SignalsOrdered(w: World, a: Party)
    requires Book(w)
    ensures var r := Agent(w, a);
      |r.raters| <= SumMap(r.confirmations) && SumMap(r.confirmations) + r.disputes <= r.completions
  {
    var r := Agent(w, a);
    assert RecordExact(r, w.completions, a);
    SumAtLeastKeys(r.confirmations);
    CountDisjoint(w.completions, ConfirmedOf(a), DisputedOf(a), SubmittedBy(a));
  }

  /** The books are right after every step of a run if and only if no dispute is
      upheld twice: once broken, they were broken by such a step. */
  lemma BookedThroughoutIff(v: Version, params: Params, ops: seq<Op>)
    requires v.RequiresReceipts()
    ensures (forall n :: 0 <= n <= |ops| ==> BookedAt(v, params, ops, n)) <==> DisputesOnceThroughout(v, params, ops)
  {
    if DisputesOnceThroughout(v, params, ops) {
      forall n | 0 <= n <= |ops|
        ensures BookedAt(v, params, ops, n)
      {
        assert forall m :: 0 <= m < n ==> ops[..n][..m] == ops[..m];
        BookRun(v, params, ops[..n]);
      }
    }
    if forall n :: 0 <= n <= |ops| ==> BookedAt(v, params, ops, n) {
      forall n | 0 <= n < |ops|
        ensures DisputesOnce(Run(EMPTY_WORLD, v, params, ops[..n]), ops[n])
      {
        assert BookedAt(v, params, ops, n) && BookedAt(v, params, ops, n + 1);
        assert ops[..n + 1][..n] == ops[..n];
        BookStep(Run(EMPTY_WORLD, v, params, ops[..n]), v, params, ops[n]);
      }
    }
  }

  ghost predicate BookedAt(v: Version, params: Params, ops: seq<Op>, n: nat)
    requires n <= |ops|
  {
    Book(Run(EMPTY_WORLD, v, params, ops[..n]))
  }

  // ---- the order of the scores, in every run at all ----

  function ReceiptedOf(a: Party): Completion -> bool
  {
    (c: Completion) => c.agent == a && c.receiptFrom.Some?
  }

  /** Confirmations are backed by receipted completions, even where disputes were upheld twice. */
  ghost predicate CreditBacked(r: AgentState, cs: seq<Completion>, a: Party)
  {
    && r.completions == CountIf(cs, SubmittedBy(a))
    && r.raters == r.confirmations.Keys
    && (forall f :: f in r.confirmations ==> r.confirmations[f] >= 1)
    && SumMap(r.confirmations) <= CountIf(cs, ReceiptedOf(a))
  }

  ghost predicate AllBacked(w: World)
  {
    forall a :: CreditBacked(Agent(w, a), w.completions, a)
  }

  lemma MoneyKeepsBacked(w: World, w': World)
    requires AllBacked(w) && MoneyMoved(w, w')
    ensures AllBacked(w')
  {
    forall a
      ensures CreditBacked(Agent(w', a), w'.completions, a)
    {
      assert CreditBacked(Agent(w, a), w.completions, a) && SameCredit(Agent(w', a), Agent(w, a));
    }
  }

  lemma AttestedBacked(r: AgentState, r': AgentState, cs: seq<Completion>, c: Completion, a: Party)
    requires CreditBacked(r, cs, a) && c.receiptFrom.None?
    requires r' == r.(completions := r.completions + (if c.agent == a then 1 else 0),
                      lastActivity := r'.lastActivity, spentWei := r'.spentWei)
    ensures CreditBacked(r', cs + [c], a)
  {
    CountAppend(cs, c, SubmittedBy(a));
    CountAppend(cs, c, ReceiptedOf(a));
  }

  lemma AttestKeepsBacked(w: World, agent: Party, now: int)
    requires AllBacked(w)
    ensures AllBacked(Submit(w, agent, now))
  {
    var w' := Submit(w, agent, now);
    var c := Completion(w.nextCompletionId, agent, now, false, false, None, None);
    forall a
      ensures CreditBacked(Agent(w', a), w'.completions, a)
    {
      assert CreditBacked(Agent(w, a), w.completions, a);
      AttestedBacked(Agent(w, a), Agent(w', a), w.completions, c, a);
    }
  }

  lemma ReceiptKeepsBacked(w: World, i: nat, from: Party, to: Party)
    requires AllBacked(w) && i < |w.completions| && Open(w.completions[i], to)
    ensures AllBacked(Confirm(w.(completions := w.completions[i := w.completions[i].(receiptFrom := Some(from))]),
                              from, to))
  {
    var c := w.completions[i].(receiptFrom := Some(from));
    var w' := Confirm(w.(completions := w.completions[i := c]), from, to);
    forall a
      ensures CreditBacked(Agent(w', a), w'.completions, a)
    {
      var r := Agent(w, a);
      assert CreditBacked(r, w.completions, a);
      CountUpdate(w.completions, i, c, SubmittedBy(a));
      CountUpdate(w.completions, i, c, ReceiptedOf(a));
      SumUpdate(r.confirmations, from, Times(r.confirmations, from) + 1);
    }
  }

  lemma RateKeepsBacked(w: World, v: Version, from: Party, to: Party)
    requires v.RequiresReceipts() && AllBacked(w)
    ensures AllBacked(GiveReceipt(w, v, from, to))
  {
    var paid := Charge(Ensure(Ensure(w, from), to), from, RECEIPT_COST);
    MoneyKeepsBacked(w, paid);
    var open := LatestOpen(w.completions, to);
    if open.Some? {
      ReceiptKeepsBacked(paid, open.value, from, to);
    }
  }

  lemma ChallengeKeepsBacked(w: World, params: Params, id: nat, challenger: Party)
    requires AllBacked(w)
    ensures AllBacked(OpenChallenge(w, params, id, challenger))
  {
    var w' := OpenChallenge(w, params, id, challenger);
    var found := IndexOf(w.completions, id);
    if found.Some? && !w.completions[found.value].challenged {
      var c := w.completions[found.value].(challenged := true, challenger := Some(challenger));
      forall a
        ensures CreditBacked(Agent(w', a), w'.completions, a)
      {
        assert CreditBacked(Agent(w, a), w.completions, a);
        CountUpdate(w.completions, found.value, c, SubmittedBy(a));
        CountUpdate(w.completions, found.value, c, ReceiptedOf(a));
      }
    }
  }

  /** Taking a confirmation back can only lower the total. */
  lemma RemovalKeepsBacked(r: AgentState, cs: seq<Completion>, a: Party, f: Party)
    requires CreditBacked(r, cs, a)
    ensures CreditBacked(RemoveConfirmation(r, f), cs, a)
  {
    if f in r.confirmations {
      RemovalExact(r, f);
    }
  }

  lemma DisputeKeepsBacked(w: World, i: nat)
    requires AllBacked(w) && i < |w.completions|
    ensures AllBacked(MarkDisputed(w, i))
  {
    var w' := MarkDisputed(w, i);
    var c := w.completions[i];
    forall a
      ensures CreditBacked(Agent(w', a), w'.completions, a)
    {
      assert CreditBacked(Agent(w, a), w.completions, a);
      CountUpdate(w.completions, i, c.(disputed := true), SubmittedBy(a));
      CountUpdate(w.completions, i, c.(disputed := true), ReceiptedOf(a));
      if a == c.agent && c.receiptFrom.Some? {
        RemovalKeepsBacked(Agent(w, a).(disputes := Agent(w, a).disputes + 1), w'.completions, a, c.receiptFrom.value);
      }
    }
  }

  lemma CloseKeepsBacked(w: World, params: Params, id: nat, upheld: bool)
    requires AllBacked(w)
    ensures AllBacked(CloseChallenge(w, params, id, upheld))
  {
    var found := IndexOf(w.completions, id);
    if found.Some? && w.completions[found.value].challenger.Some? {
      var who := w.completions[found.value].challenger.value;
      var touched := Ensure(w, who);
      TouchMovesMoney(w, who);
      MoneyKeepsBacked(w, touched);
      if upheld {
        DisputeKeepsBacked(touched, found.value);
      }
      var marked := if upheld then MarkDisputed(touched, found.value) else touched;
      SettleMovesMoney(marked, params, who, upheld);
      MoneyKeepsBacked(marked, SettleBond(marked, params, who, upheld));
    }
  }

  lemma ResolveKeepsBacked(w: World, v: Version, params: Params, id: nat, upheld: bool)
    requires AllBacked(w)
    ensures AllBacked(Apply(w, v, params, Resolve(id, upheld)))
  {
    DisputeSlashMovesMoney(w, v, id, upheld);
    MoneyKeepsBacked(w, DisputeSlash(w, v, id, upheld));
    CloseKeepsBacked(DisputeSlash(w, v, id, upheld), params, id, upheld);
  }

  lemma StepKeepsBacked(w: World, v: Version, params: Params, op: Op)
    requires v.RequiresReceipts() && AllBacked(w)
    ensures AllBacked(Apply(w, v, params, op))
  {
    match op {
      case Attest(agent, now) => AttestKeepsBacked(w, agent, now);
      case Rate(from, to) => RateKeepsBacked(w, v, from, to);
      case Challenge(id, challenger) => ChallengeKeepsBacked(w, params, id, challenger);
      case Resolve(id, upheld) => ResolveKeepsBacked(w, v, params, id, upheld);
      case SlashCapability(agent) => MoneyKeepsBacked(w, Apply(w, v, params, op));
      case Deposit(agent, wei, gas) => MoneyKeepsBacked(w, Apply(w, v, params, op));
    }
  }

  lemma {:induction false} RunKeepsBacked(v: Version, params: Params, ops: seq<Op>)
    requires v.RequiresReceipts()
    ensures AllBacked(Run(EMPTY_WORLD, v, params, ops))
  {
    if ops != [] {
      var n := |ops| - 1;
      RunKeepsBacked(v, params, ops[..n]);
      StepKeepsBacked(Run(EMPTY_WORLD, v, params, ops[..n]), v, params, ops[n]);
    }
  }

  lemma {:induction false} CountAtMost(cs: seq<Completion>, p: Completion -> bool, q: Completion -> bool)
    requires forall c :: p(c) ==> q(c)
    ensures CountIf(cs, p) <= CountIf(cs, q)
  {
    if cs != [] {
      CountAtMost(cs[..|cs| - 1], p, q);
    }
  }

  /** Each protocol version is at least as strict as the one before, and a v0.5
      score of n is backed by n stakes. */
  ghost predicate VersionsOrdered(w: World, params: Params, a: Party, now: int)
  {
    && Score(w, V05, params, a, now) <= Score(w, V03, params, a, now)
         <= Score(w, TwoSided, params, a, now) <= Score(w, SelfAttest, params, a, now)
    && Score(w, V05, params, a, now) * STAKE_PER_POINT_WEI <= Agent(w, a).lockedWei
  }

  lemma ScoresOrdered(w: World, params: Params, a: Party, now: int)
    requires AllBacked(w)
    ensures VersionsOrdered(w, params, a, now)
  {
    var r := Agent(w, a);
    assert CreditBacked(r, w.completions, a);
    SumAtLeastKeys(r.confirmations);
    CountAtMost(w.completions, ReceiptedOf(a), SubmittedBy(a));
    ScoreMonotoneInSignal(|r.raters|, r.disputes, SumMap(r.confirmations), r.disputes, r.lastActivity, now,
                          params.decayGraceSecs, params.decayHorizonSecs);
    ScoreMonotoneInSignal(SumMap(r.confirmations), r.disputes, r.completions, r.disputes, r.lastActivity, now,
                          params.decayGraceSecs, params.decayHorizonSecs);
  }

  /** The versions are ordered after every run and at every moment, however disputes are ruled. */
  lemma ScoresOrderedInEveryRun(v: Version, params: Params, ops: seq<Op>, a: Party, now: int)
    requires v.RequiresReceipts()
    ensures VersionsOrdered(Run(EMPTY_WORLD, v, params, ops), params, a, now)
  {
    RunKeepsBacked(v, params, ops);
    ScoresOrdered(Run(EMPTY_WORLD, v, params, ops), params, a, now);
  }
}
