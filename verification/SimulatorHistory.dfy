/** The simulator's world told from the operations alone: what each completion has
    been through, which of them a receipt goes to, and what a score is made of. */
module SimulatorHistory {

  import opened Parties
  import opened Arithmetic
  import opened Decay
  import opened Mechanism
  import opened Bookkeeping

  // ---- what has happened to a completion ----

  /** How many completions these operations submit. */
  function Attests(ops: seq<Op>): nat
  {
    if ops == [] then 0 else Attests(ops[..|ops| - 1]) + (if ops[|ops| - 1].Attest? then 1 else 0)
  }

  /** Operation `m` submits the completion of that id. */
  predicate Submits(ops: seq<Op>, m: int, id: nat)
  {
    0 <= m < |ops| && ops[m].Attest? && Attests(ops[..m]) + 1 == id
  }

  /** Operation `m` challenges the completion, which has been submitted by then. */
  predicate Challenges(ops: seq<Op>, m: int, id: nat)
  {
    0 <= m < |ops| && ops[m].Challenge? && ops[m].completionId == id && 1 <= id <= Attests(ops[..m])
  }

  ghost predicate Challenged(ops: seq<Op>, id: nat)
  {
    exists m :: Challenges(ops, m, id)
  }

  /** The challenge that counts: no earlier one reached the completion. */
  ghost predicate FirstChallenge(ops: seq<Op>, m: int, id: nat)
  {
    Challenges(ops, m, id) && forall k :: 0 <= k < m ==> !Challenges(ops, k, id)
  }

  /** Operation `m` upholds a challenge on the completion. */
  ghost predicate Upholds(ops: seq<Op>, m: int, id: nat)
  {
    0 <= m < |ops| && ops[m] == Resolve(id, true) && Challenged(ops[..m], id)
  }

  ghost predicate Upheld(ops: seq<Op>, id: nat)
  {
    exists m :: Upholds(ops, m, id)
  }

  lemma PrefixOf(ops: seq<Op>, op: Op, m: int)
    requires 0 <= m <= |ops|
    ensures (ops + [op])[..m] == ops[..m]
    ensures m < |ops| ==> (ops + [op])[m] == ops[m]
  {
  }

  lemma AttestsNext(ops: seq<Op>, op: Op)
    ensures Attests(ops + [op]) == Attests(ops) + (if op.Attest? then 1 else 0)
  {
    assert (ops + [op])[..|ops|] == ops;
  }

  lemma SubmitsNext(ops: seq<Op>, op: Op, m: int, id: nat)
    ensures Submits(ops + [op], m, id)
       <==> if m == |ops| then op.Attest? && Attests(ops) + 1 == id else Submits(ops, m, id)
  {
    if 0 <= m <= |ops| {
      PrefixOf(ops, op, m);
      assert ops[..|ops|] == ops;
    }
  }

  lemma ChallengesNext(ops: seq<Op>, op: Op, m: int, id: nat)
    ensures Challenges(ops + [op], m, id)
       <==> if m == |ops| then op.Challenge? && op.completionId == id && 1 <= id <= Attests(ops)
            else Challenges(ops, m, id)
  {
    if 0 <= m <= |ops| {
      PrefixOf(ops, op, m);
      assert ops[..|ops|] == ops;
    }
  }

  lemma ChallengedNext(ops: seq<Op>, op: Op, id: nat)
    ensures Challenged(ops + [op], id)
       <==> Challenged(ops, id) || (op.Challenge? && op.completionId == id && 1 <= id <= Attests(ops))
  {
    ChallengesNext(ops, op, |ops|, id);
    if Challenged(ops, id) {
      var m :| Challenges(ops, m, id);
      ChallengesNext(ops, op, m, id);
    }
    if Challenged(ops + [op], id) {
      var m :| Challenges(ops + [op], m, id);
      ChallengesNext(ops, op, m, id);
    }
  }

  lemma UpholdsNext(ops: seq<Op>, op: Op, m: int, id: nat)
    ensures Upholds(ops + [op], m, id)
       <==> if m == |ops| then op == Resolve(id, true) && Challenged(ops, id) else Upholds(ops, m, id)
  {
    if 0 <= m <= |ops| {
      PrefixOf(ops, op, m);
      assert ops[..|ops|] == ops;
    }
  }

  lemma UpheldNext(ops: seq<Op>, op: Op, id: nat)
    ensures Upheld(ops + [op], id) <==> Upheld(ops, id) || (op == Resolve(id, true) && Challenged(ops, id))
  {
    UpholdsNext(ops, op, |ops|, id);
    if Upheld(ops, id) {
      var m :| Upholds(ops, m, id);
      UpholdsNext(ops, op, m, id);
    }
    if Upheld(ops + [op], id) {
      var m :| Upholds(ops + [op], m, id);
      UpholdsNext(ops, op, m, id);
    }
  }

  // ---- what a completion says of itself ----

  /** The completion says what the operations have done with it. */
  ghost predicate Told(c: Completion, ops: seq<Op>, id: nat)
  {
    && c.id == id
    && (forall m :: Submits(ops, m, id) ==> c.agent == ops[m].agent && c.timestamp == ops[m].now)
    && (c.challenged <==> Challenged(ops, id))
    && (c.challenger.Some? <==> Challenged(ops, id))
    && (forall m :: FirstChallenge(ops, m, id) ==> c.challenger == Some(ops[m].challenger))
    && (c.disputed <==> Upheld(ops, id))
  }

  ghost predicate AllTold(w: World, ops: seq<Op>)
  {
    && w.nextCompletionId == Attests(ops) + 1 && |w.completions| == Attests(ops)
    && forall i :: 0 <= i < |w.completions| ==> Told(w.completions[i], ops, i + 1)
  }

  /** What one operation does to completion `c`, the `i`-th in the list. */
  ghost predicate Moved(c: Completion, c': Completion, op: Op)
  {
    && c'.id == c.id && c'.agent == c.agent && c'.timestamp == c.timestamp
    && c'.challenged == (c.challenged || (op.Challenge? && op.completionId == c.id))
    && c'.challenger == (if op.Challenge? && op.completionId == c.id && !c.challenged then Some(op.challenger)
                         else c.challenger)
    && c'.disputed == (c.disputed || (op == Resolve(c.id, true) && c.challenger.Some?))
  }

  ghost predicate AllMoved(w: World, w': World, op: Op)
  {
    && w'.nextCompletionId == w.nextCompletionId + (if op.Attest? then 1 else 0)
    && |w'.completions| == |w.completions| + (if op.Attest? then 1 else 0)
    && (forall i :: 0 <= i < |w.completions| ==> Moved(w.completions[i], w'.completions[i], op))
    && (op.Attest? ==> w'.completions[|w.completions|]
                       == Completion(w.nextCompletionId, op.agent, op.now, false, false, None, None))
  }

  lemma RateMoves(w: World, v: Version, params: Params, from: Party, to: Party)
    ensures AllMoved(w, GiveReceipt(w, v, from, to), Rate(from, to))
  {
  }

  lemma ChallengeMoves(w: World, params: Params, id: nat, challenger: Party)
    requires Numbered(w)
    ensures AllMoved(w, OpenChallenge(w, params, id, challenger), Challenge(id, challenger))
  {
    IndexIsId(w, id);
  }

  lemma ResolveMoves(w: World, v: Version, params: Params, id: nat, upheld: bool)
    requires Numbered(w)
    ensures AllMoved(w, Apply(w, v, params, Resolve(id, upheld)), Resolve(id, upheld))
  {
    IndexIsId(w, id);
    DisputeSlashMovesMoney(w, v, id, upheld);
    CloseMoves(DisputeSlash(w, v, id, upheld), params, id, upheld);
  }

  lemma CloseMoves(w: World, params: Params, id: nat, upheld: bool)
    requires Numbered(w)
    ensures AllMoved(w, CloseChallenge(w, params, id, upheld), Resolve(id, upheld))
  {
    IndexIsId(w, id);
  }

  lemma CompletionsMove(w: World, v: Version, params: Params, op: Op)
    requires Numbered(w)
    ensures AllMoved(w, Apply(w, v, params, op), op)
  {
    match op {
      case Rate(from, to) => RateMoves(w, v, params, from, to);
      case Challenge(id, challenger) => ChallengeMoves(w, params, id, challenger);
      case Resolve(id, upheld) => ResolveMoves(w, v, params, id, upheld);
      case _ =>
    }
  }

  lemma FirstChallengeNext(ops: seq<Op>, op: Op, m: int, id: nat)
    ensures FirstChallenge(ops + [op], m, id)
       <==> if m == |ops| then op.Challenge? && op.completionId == id && 1 <= id <= Attests(ops) && !Challenged(ops, id)
            else FirstChallenge(ops, m, id)
  {
    ChallengesNext(ops, op, m, id);
    forall k | 0 <= k < |ops|
      ensures Challenges(ops + [op], k, id) <==> Challenges(ops, k, id)
    {
      ChallengesNext(ops, op, k, id);
    }
  }

  lemma ToldNext(c: Completion, c': Completion, ops: seq<Op>, op: Op, id: nat)
    requires Told(c, ops, id) && Moved(c, c', op) && 1 <= id <= Attests(ops)
    ensures Told(c', ops + [op], id)
  {
    ChallengedNext(ops, op, id);
    UpheldNext(ops, op, id);
    forall m | Submits(ops + [op], m, id)
      ensures c'.agent == (ops + [op])[m].agent && c'.timestamp == (ops + [op])[m].now
    {
      SubmitsNext(ops, op, m, id);
      PrefixOf(ops, op, m);
      assert Submits(ops, m, id);
    }
    forall m | FirstChallenge(ops + [op], m, id)
      ensures c'.challenger == Some((ops + [op])[m].challenger)
    {
      FirstChallengeNext(ops, op, m, id);
      PrefixOf(ops, op, m);
      assert m < |ops| ==> FirstChallenge(ops, m, id);
    }
  }

  /** Nothing has happened yet to a completion just submitted. */
  lemma FreshTold(c: Completion, ops: seq<Op>, op: Op)
    requires op.Attest? && c == Completion(Attests(ops) + 1, op.agent, op.now, false, false, None, None)
    ensures Told(c, ops + [op], Attests(ops) + 1)
  {
    var id, more := Attests(ops) + 1, ops + [op];
    NotYet(ops, id);
    ChallengedNext(ops, op, id);
    UpheldNext(ops, op, id);
    forall m | Submits(more, m, id)
      ensures c.agent == more[m].agent && c.timestamp == more[m].now
    {
      SubmitsNext(ops, op, m, id);
      if m < |ops| {
        SubmitsBound(ops, m, id);
      }
    }
    forall m
      ensures !FirstChallenge(more, m, id)
    {
      assert !Challenges(more, m, id);
    }
  }

  lemma {:induction false} AttestsGrow(ops: seq<Op>, m: nat)
    requires m <= |ops|
    ensures Attests(ops[..m]) <= Attests(ops)
  {
    if m < |ops| {
      AttestsGrow(ops[..|ops| - 1], m);
      assert ops[..|ops| - 1][..m] == ops[..m];
    } else {
      assert ops[..m] == ops;
    }
  }

  lemma SubmitsBound(ops: seq<Op>, m: int, id: nat)
    requires Submits(ops, m, id)
    ensures id <= Attests(ops)
  {
    AttestsGrow(ops, m + 1);
    assert ops[..m + 1][..m] == ops[..m];
  }

  lemma NotYet(ops: seq<Op>, id: nat)
    requires id > Attests(ops)
    ensures !Challenged(ops, id) && !Upheld(ops, id)
  {
    forall m: int
      ensures !Challenges(ops, m, id) && !Upholds(ops, m, id)
    {
      if 0 <= m < |ops| {
        AttestsGrow(ops, m);
        forall k: int
          ensures !Challenges(ops[..m], k, id)
        {
          if 0 <= k < m {
            AttestsGrow(ops[..m], k);
          }
        }
      }
    }
  }

  /** In every run the list holds one completion for each attestation, in order, and each says who
      submitted it and when, whether and by whom it was first challenged, and whether a
      challenge on it was upheld. */
  lemma {:induction false} CompletionsTold(v: Version, params: Params, ops: seq<Op>)
    ensures AllTold(Run(EMPTY_WORLD, v, params, ops), ops)
  {
    if ops != [] {
      var before, op := ops[..|ops| - 1], ops[|ops| - 1];
      var w := Run(EMPTY_WORLD, v, params, before);
      CompletionsTold(v, params, before);
      assert before + [op] == ops;
      CompletionsMove(w, v, params, op);
      AllToldNext(w, Apply(w, v, params, op), before, op);
    }
  }

  lemma AllToldNext(w: World, w': World, ops: seq<Op>, op: Op)
    requires AllTold(w, ops) && AllMoved(w, w', op)
    ensures AllTold(w', ops + [op])
  {
    AttestsNext(ops, op);
    forall i | 0 <= i < |w'.completions|
      ensures Told(w'.completions[i], ops + [op], i + 1)
    {
      if i < |w.completions| {
        assert Told(w.completions[i], ops, i + 1);
        ToldNext(w.completions[i], w'.completions[i], ops, op, i + 1);
      } else {
        FreshTold(w'.completions[i], ops, op);
      }
    }
  }

  // ---- which completion a receipt goes to ----

  /** Completion `i` is `to`'s and still waits for its receipt. */
  ghost predicate Waits(cs: seq<Completion>, ops: seq<Op>, i: int, to: Party)
  {
    && 0 <= i < |cs| && cs[i].agent == to && cs[i].receiptFrom == None
    && !Challenged(ops, i + 1) && !Upheld(ops, i + 1)
  }

  /** In every run: an operation gives completion `i` a receipt if and only if it is a rating of
      its agent, and the completion is the newest of that agent with no receipt, no
      challenge and no upheld ruling so far. The receipt is the rater's. */
  lemma ReceiptStepIff(v: Version, params: Params, ops: seq<Op>, op: Op, i: nat)
    requires v.RequiresReceipts() && i < |Run(EMPTY_WORLD, v, params, ops).completions|
    ensures
      var cs := Run(EMPTY_WORLD, v, params, ops).completions;
      var cs' := Run(EMPTY_WORLD, v, params, ops + [op]).completions;
      && i < |cs'|
      && (cs'[i].receiptFrom != cs[i].receiptFrom
          <==> op.Rate? && Waits(cs, ops, i, op.to) && forall j :: i < j < |cs| ==> !Waits(cs, ops, j, op.to))
      && (cs'[i].receiptFrom != cs[i].receiptFrom ==> cs'[i].receiptFrom == Some(op.from))
  {
    var w := Run(EMPTY_WORLD, v, params, ops);
    assert (ops + [op])[..|ops|] == ops;
    CompletionsTold(v, params, ops);
    CompletionsMove(w, v, params, op);
    ReceiptMoves(w, v, params, op, i);
    forall j | 0 <= j < |w.completions|
      ensures op.Rate? ==> (Open(w.completions[j], op.to) <==> Waits(w.completions, ops, j, op.to))
    {
      assert Told(w.completions[j], ops, j + 1);
    }
  }

  lemma ReceiptMoves(w: World, v: Version, params: Params, op: Op, i: nat)
    requires Numbered(w) && i < |w.completions|
    ensures
      var w' := Apply(w, v, params, op);
      && i < |w'.completions|
      && w'.completions[i].receiptFrom
         == if v.RequiresReceipts() && op.Rate? && LatestOpen(w.completions, op.to) == Some(i) then Some(op.from)
            else w.completions[i].receiptFrom
  {
    match op {
      case Challenge(id, challenger) => IndexIsId(w, id);
      case Resolve(id, upheld) => ResolveKeepsReceipts(w, v, params, id, upheld);
      case _ =>
    }
  }

  lemma ResolveKeepsReceipts(w: World, v: Version, params: Params, id: nat, upheld: bool)
    requires Numbered(w)
    ensures
      var cs, cs' := w.completions, Apply(w, v, params, Resolve(id, upheld)).completions;
      |cs'| == |cs| && forall i :: 0 <= i < |cs| ==> cs'[i].receiptFrom == cs[i].receiptFrom
  {
    IndexIsId(w, id);
    DisputeSlashMovesMoney(w, v, id, upheld);
  }

  lemma ReceiptStays(v: Version, params: Params, ops: seq<Op>, op: Op, i: nat)
    requires i < |Run(EMPTY_WORLD, v, params, ops).completions|
    requires Run(EMPTY_WORLD, v, params, ops).completions[i].receiptFrom.Some? || Challenged(ops, i + 1)
    ensures var cs' := Run(EMPTY_WORLD, v, params, ops + [op]).completions;
      i < |cs'| && cs'[i].receiptFrom == Run(EMPTY_WORLD, v, params, ops).completions[i].receiptFrom
  {
    if v.RequiresReceipts() {
      ReceiptStepIff(v, params, ops, op, i);
    } else {
      CompletionsTold(v, params, ops);
      ReceiptMoves(Run(EMPTY_WORLD, v, params, ops), v, params, op, i);
      assert (ops + [op])[..|ops|] == ops;
    }
  }

  /** Over whole runs: once a completion has its receipt it keeps it, and once it has been challenged
      it never gets one. */
  lemma {:induction false} NoReceiptAfterChallenge(v: Version, params: Params, ops: seq<Op>, n: nat, i: nat)
    requires n <= |ops| && i < |Run(EMPTY_WORLD, v, params, ops[..n]).completions|
    requires Run(EMPTY_WORLD, v, params, ops[..n]).completions[i].receiptFrom.Some? || Challenged(ops[..n], i + 1)
    ensures var cs := Run(EMPTY_WORLD, v, params, ops).completions;
      i < |cs| && cs[i].receiptFrom == Run(EMPTY_WORLD, v, params, ops[..n]).completions[i].receiptFrom
  {
    if n == |ops| {
      assert ops[..n] == ops;
    } else {
      var before, op := ops[..|ops| - 1], ops[|ops| - 1];
      assert before[..n] == ops[..n] && before + [op] == ops;
      NoReceiptAfterChallenge(v, params, before, n, i);
      ChallengedStill(before, n, i + 1);
      ReceiptStays(v, params, before, op, i);
    }
  }

  lemma {:induction false} ChallengedStill(ops: seq<Op>, n: nat, id: nat)
    requires n <= |ops|
    ensures Challenged(ops[..n], id) ==> Challenged(ops, id)
  {
    if Challenged(ops[..n], id) {
      var m :| Challenges(ops[..n], m, id);
      assert ops[..n][..m] == ops[..m] && Challenges(ops, m, id);
    }
  }

  // ---- what a record is made of ----

  function AttestsBy(ops: seq<Op>, a: Party): nat
  {
    if ops == [] then 0
    else
      var last := ops[|ops| - 1];
      AttestsBy(ops[..|ops| - 1], a) + (if last.Attest? && last.agent == a then 1 else 0)
  }

  /** When `a` attested last, zero if never. */
  function LastAttest(ops: seq<Op>, a: Party): int
  {
    if ops == [] then 0
    else
      var last := ops[|ops| - 1];
      if last.Attest? && last.agent == a then last.now else LastAttest(ops[..|ops| - 1], a)
  }

  /** Upheld rulings on completions that `a` submitted. */
  ghost function UpheldAgainst(ops: seq<Op>, a: Party): nat
  {
    if ops == [] then 0
    else
      var before, last := ops[..|ops| - 1], ops[|ops| - 1];
      UpheldAgainst(before, a) + (if RulesAgainst(before, last, a) then 1 else 0)
  }

  /** The ruling upholds a challenge on a completion that `a` submitted. */
  ghost predicate RulesAgainst(ops: seq<Op>, op: Op, a: Party)
  {
    && op.Resolve? && op.upheld && Challenged(ops, op.completionId)
    && exists m :: Submits(ops, m, op.completionId) && ops[m].agent == a
  }

  ghost predicate RecordTold(r: AgentState, ops: seq<Op>, a: Party)
  {
    && r.completions == AttestsBy(ops, a) && r.lastActivity == LastAttest(ops, a)
    && r.disputes == UpheldAgainst(ops, a)
  }

  lemma {:induction false} SubmittedOnce(ops: seq<Op>, id: nat)
    requires 1 <= id <= Attests(ops)
    ensures exists m :: Submits(ops, m, id)
  {
    var n := |ops| - 1;
    if ops[n].Attest? && Attests(ops[..n]) + 1 == id {
      assert Submits(ops, n, id);
    } else {
      SubmittedOnce(ops[..n], id);
      var m :| Submits(ops[..n], m, id);
      assert ops[..n][..m] == ops[..m] && Submits(ops, m, id);
    }
  }

  /** What one operation does to a record, apart from its receipts and its money. */
  lemma RecordMoves(w: World, v: Version, params: Params, op: Op, a: Party)
    requires Numbered(w)
    ensures
      var r, r' := Agent(w, a), Agent(Apply(w, v, params, op), a);
      && r'.completions == r.completions + (if op.Attest? && op.agent == a then 1 else 0)
      && r'.lastActivity == (if op.Attest? && op.agent == a then op.now else r.lastActivity)
      && (!op.Resolve? ==> r'.disputes == r.disputes)
  {
    match op {
      case Rate(from, to) => RateRecord(w, v, from, to, a);
      case Challenge(id, challenger) => ChallengeRecord(w, params, id, challenger, a);
      case Resolve(id, upheld) => ResolveRecord(w, v, params, id, upheld, a);
      case _ =>
    }
  }

  /** Two records that count the same attestations and disputes. */
  predicate SameRecord(r: AgentState, s: AgentState)
  {
    r.completions == s.completions && r.lastActivity == s.lastActivity && r.disputes == s.disputes
  }

  lemma RateRecord(w: World, v: Version, from: Party, to: Party, a: Party)
    ensures SameRecord(Agent(GiveReceipt(w, v, from, to), a), Agent(w, a))
  {
  }

  lemma ChallengeRecord(w: World, params: Params, id: nat, challenger: Party, a: Party)
    ensures SameRecord(Agent(OpenChallenge(w, params, id, challenger), a), Agent(w, a))
  {
  }

  lemma ResolveRecord(w: World, v: Version, params: Params, id: nat, upheld: bool, a: Party)
    requires Numbered(w)
    ensures
      var r, r' := Agent(w, a), Agent(Apply(w, v, params, Resolve(id, upheld)), a);
      && r'.completions == r.completions && r'.lastActivity == r.lastActivity
      && r'.disputes == r.disputes + (if upheld && 1 <= id <= |w.completions| && w.completions[id - 1].challenger.Some?
                                         && w.completions[id - 1].agent == a then 1 else 0)
  {
    IndexIsId(w, id);
    SlashKeepsRecord(w, v, id, upheld, a);
    CloseRecord(DisputeSlash(w, v, id, upheld), params, id, upheld, a);
  }

  lemma SlashKeepsRecord(w: World, v: Version, id: nat, upheld: bool, a: Party)
    ensures
      var w' := DisputeSlash(w, v, id, upheld);
      && w'.completions == w.completions && w'.nextCompletionId == w.nextCompletionId
      && SameRecord(Agent(w', a), Agent(w, a))
  {
  }

  lemma CloseRecord(w: World, params: Params, id: nat, upheld: bool, a: Party)
    requires Numbered(w)
    ensures
      var r, r' := Agent(w, a), Agent(CloseChallenge(w, params, id, upheld), a);
      && r'.completions == r.completions && r'.lastActivity == r.lastActivity
      && r'.disputes == r.disputes + (if upheld && 1 <= id <= |w.completions| && w.completions[id - 1].challenger.Some?
                                         && w.completions[id - 1].agent == a then 1 else 0)
  {
    IndexIsId(w, id);
  }

  lemma RecordCounts(r: AgentState, r': AgentState, ops: seq<Op>, op: Op, a: Party)
    requires RecordTold(r, ops, a)
    requires r'.completions == r.completions + (if op.Attest? && op.agent == a then 1 else 0)
    requires r'.lastActivity == if op.Attest? && op.agent == a then op.now else r.lastActivity
    requires r'.disputes == r.disputes + (if RulesAgainst(ops, op, a) then 1 else 0)
    ensures RecordTold(r', ops + [op], a)
  {
    assert (ops + [op])[..|ops|] == ops;
  }

  lemma DisputesMove(w: World, v: Version, params: Params, ops: seq<Op>, op: Op, a: Party)
    requires AllTold(w, ops)
    ensures Agent(Apply(w, v, params, op), a).disputes
         == Agent(w, a).disputes + (if RulesAgainst(ops, op, a) then 1 else 0)
  {
    RecordMoves(w, v, params, op, a);
    if op.Resolve? {
      ResolveRecord(w, v, params, op.completionId, op.upheld, a);
      RulesAgainstIff(w, ops, op.completionId, a);
    }
  }

  lemma RecordToldNext(w: World, v: Version, params: Params, ops: seq<Op>, op: Op, a: Party)
    requires AllTold(w, ops) && RecordTold(Agent(w, a), ops, a)
    ensures RecordTold(Agent(Apply(w, v, params, op), a), ops + [op], a)
  {
    RecordMoves(w, v, params, op, a);
    DisputesMove(w, v, params, ops, op, a);
    RecordCounts(Agent(w, a), Agent(Apply(w, v, params, op), a), ops, op, a);
  }

  lemma RulesAgainstIff(w: World, ops: seq<Op>, id: nat, a: Party)
    requires AllTold(w, ops)
    ensures RulesAgainst(ops, Resolve(id, true), a)
       <==> 1 <= id <= |w.completions| && w.completions[id - 1].challenger.Some? && w.completions[id - 1].agent == a
  {
    if 1 <= id <= |w.completions| {
      assert Told(w.completions[id - 1], ops, id);
      SubmittedOnce(ops, id);
    } else {
      forall m: int
        ensures !Challenges(ops, m, id)
      {
        if 0 <= m < |ops| {
          AttestsGrow(ops, m);
        }
      }
    }
  }

  /** In every run and every version a record counts its agent's attestations and the rulings
      upheld on its completions, and its activity is the last attestation, no receipt or ruling. */
  lemma {:induction false} RecordsTold(v: Version, params: Params, ops: seq<Op>, a: Party)
    ensures RecordTold(Agent(Run(EMPTY_WORLD, v, params, ops), a), ops, a)
  {
    if ops != [] {
      var before, op := ops[..|ops| - 1], ops[|ops| - 1];
      RecordsTold(v, params, before, a);
      CompletionsTold(v, params, before);
      assert before + [op] == ops;
      RecordToldNext(Run(EMPTY_WORLD, v, params, before), v, params, before, op, a);
    }
  }

  // ---- ratings where none is needed ----

  /** How often `from` has rated `to`. */
  function Ratings(ops: seq<Op>, from: Party, to: Party): nat
  {
    if ops == [] then 0
    else Ratings(ops[..|ops| - 1], from, to) + (if ops[|ops| - 1] == Rate(from, to) then 1 else 0)
  }

  ghost predicate NoReceipts(w: World)
  {
    forall i :: 0 <= i < |w.completions| ==> w.completions[i].receiptFrom == None
  }

  lemma NoReceiptsNext(w: World, params: Params, op: Op)
    requires Numbered(w) && NoReceipts(w)
    ensures NoReceipts(Apply(w, SelfAttest, params, op))
  {
    var w' := Apply(w, SelfAttest, params, op);
    CompletionsMove(w, SelfAttest, params, op);
    forall i | 0 <= i < |w'.completions|
      ensures w'.completions[i].receiptFrom == None
    {
      if i < |w.completions| {
        ReceiptMoves(w, SelfAttest, params, op, i);
      }
    }
  }

  lemma RatingMoves(w: World, params: Params, op: Op, from: Party, to: Party)
    requires Numbered(w) && NoReceipts(w)
    ensures Times(Agent(Apply(w, SelfAttest, params, op), to).confirmations, from)
         == Times(Agent(w, to).confirmations, from) + (if op == Rate(from, to) then 1 else 0)
  {
    match op {
      case Challenge(id, challenger) => ChallengeKeepsRatings(w, params, id, challenger, to);
      case Resolve(id, upheld) => CloseKeepsRatings(w, params, id, upheld, to);
      case _ =>
    }
  }

  lemma ChallengeKeepsRatings(w: World, params: Params, id: nat, challenger: Party, to: Party)
    ensures Agent(OpenChallenge(w, params, id, challenger), to).confirmations == Agent(w, to).confirmations
  {
  }

  lemma CloseKeepsRatings(w: World, params: Params, id: nat, upheld: bool, to: Party)
    requires Numbered(w) && NoReceipts(w)
    ensures Agent(CloseChallenge(w, params, id, upheld), to).confirmations == Agent(w, to).confirmations
  {
    IndexIsId(w, id);
  }

  /** A version that asks for no receipts records every rating, with or without a completion to
      confirm, and rulings take none of them back. */
  lemma {:induction false} RatingsTold(params: Params, ops: seq<Op>, from: Party, to: Party)
    ensures
      var w := Run(EMPTY_WORLD, SelfAttest, params, ops);
      NoReceipts(w) && Times(Agent(w, to).confirmations, from) == Ratings(ops, from, to)
  {
    if ops != [] {
      var before, op := ops[..|ops| - 1], ops[|ops| - 1];
      var w := Run(EMPTY_WORLD, SelfAttest, params, before);
      RatingsTold(params, before, from, to);
      CompletionsTold(SelfAttest, params, before);
      NoReceiptsNext(w, params, op);
      RatingMoves(w, params, op, from, to);
    }
  }

  // ---- what a score is made of ----

  /** Completions of `a` that have a receipt and no upheld dispute. */
  function ConfirmedOnes(cs: seq<Completion>, a: Party): set<nat>
  {
    set i: nat | i < |cs| && cs[i].agent == a && cs[i].receiptFrom.Some? && !cs[i].disputed
  }

  /** Whose receipts those are. */
  function Confirmers(cs: seq<Completion>, a: Party): set<Party>
  {
    set i: nat | i in ConfirmedOnes(cs, a) && i < |cs| && cs[i].receiptFrom.Some? :: cs[i].receiptFrom.value
  }

  lemma {:induction false} CountIsCard(cs: seq<Completion>, a: Party)
    ensures CountIf(cs, ConfirmedOf(a)) == |ConfirmedOnes(cs, a)|
  {
    if cs != [] {
      var n := |cs| - 1;
      CountIsCard(cs[..n], a);
      assert ConfirmedOnes(cs, a) == ConfirmedOnes(cs[..n], a) + (if ConfirmedOf(a)(cs[n]) then {n} else {});
    }
  }

  /** The confirmation table holds those receipts: as many, and from the same counterparties. */
  lemma CreditTold(w: World, a: Party)
    requires Book(w)
    ensures SumMap(Agent(w, a).confirmations) == |ConfirmedOnes(w.completions, a)|
    ensures Agent(w, a).raters == Confirmers(w.completions, a)
  {
    var r, cs := Agent(w, a), w.completions;
    assert RecordExact(r, cs, a);
    CountIsCard(cs, a);
    forall f
      ensures f in r.raters <==> f in Confirmers(cs, a)
    {
      CountNone(cs, ConfirmedFor(a, f));
      if f in r.raters {
        assert Times(r.confirmations, f) == CountIf(cs, ConfirmedFor(a, f)) > 0;
        var i :| 0 <= i < |cs| && ConfirmedFor(a, f)(cs[i]);
        assert i in ConfirmedOnes(cs, a);
      }
      if f in Confirmers(cs, a) {
        var i :| i in ConfirmedOnes(cs, a) && cs[i].receiptFrom == Some(f);
        assert ConfirmedFor(a, f)(cs[i]);
        assert Times(r.confirmations, f) == CountIf(cs, ConfirmedFor(a, f));
      }
    }
  }

  /** What each version counts in an agent's favour. */
  ghost function CreditOf(v: Version, ops: seq<Op>, cs: seq<Completion>, a: Party): nat
  {
    match v
    case SelfAttest => AttestsBy(ops, a)
    case TwoSided => |ConfirmedOnes(cs, a)|
    case V03 => |Confirmers(cs, a)|
    case V05 => |Confirmers(cs, a)|
  }

  /** A score told from the run: attestations, receipts or distinct counterparties on undisputed
      completions, as the version has it, less the rulings upheld against the agent,
      decayed since its last attestation, and in v0.5 no more than its stake pays for. */
  lemma ScoreTold(v: Version, params: Params, ops: seq<Op>, a: Party, now: int)
    requires v.RequiresReceipts() ==> DisputesOnceThroughout(v, params, ops)
    ensures
      var w := Run(EMPTY_WORLD, v, params, ops);
      var decayed := LinearDecayScore(CreditOf(v, ops, w.completions, a), UpheldAgainst(ops, a), LastAttest(ops, a),
                                      now, params.decayGraceSecs, params.decayHorizonSecs);
      Score(w, v, params, a, now)
      == if v.V05? then Min(decayed, Agent(w, a).lockedWei / 10_000_000_000_000_000) else decayed
  {
    RecordsTold(v, params, ops, a);
    if v.RequiresReceipts() {
      BookRun(v, params, ops);
      CreditTold(Run(EMPTY_WORLD, v, params, ops), a);
    }
  }

  /** What the operations cost, in wei: their gas at 0.04 gwei and 0.000003 ether of data fee each. */
  lemma PricesInWei()
    ensures ATTEST_COST == 11_487_440_000_000 && RECEIPT_COST == 9_104_240_000_000
    ensures CHALLENGE_COST == 7_236_800_000_000 && REGISTER_COST == 15_224_840_000_000
    ensures STAKE_PER_POINT_WEI == 10_000_000_000_000_000 && SLASH_PER_DISPUTE_WEI == 50_000_000_000_000_000
  {
  }
}
