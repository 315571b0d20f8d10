/** Collusive ring: accounts that confirm each other's completions, mixed into a
    graph of honest agents. What the ring earns, what it pays for it, and
    which detectors see it, for every honest rating pattern. */
module CollusionScenario {

  import opened Arithmetic
  import opened Parties
  import opened Mechanism
  import opened Bookkeeping
  import opened Spending
  import opened TrustGraph
  import opened RingDetection
  import opened HonestCrowd

  datatype CollusionConfig = CollusionConfig(ringSize: nat, ratingsPerPair: nat, reciprocityThreshold: real,
                                             honestAgents: nat, honestRatings: nat, coreThreshold: int)

  const HONEST_BASE := 1000

  // ---- the closed form ----

  /** Points per ring member: repeated ratings use up completions without adding raters. */
  function RingScore(v: Version, size: nat, ratings: nat): nat
    requires size >= 1
  {
    if ratings == 0 then 0
    else
      match v
      case SelfAttest => 0
      case TwoSided => size - 1
      case V03 => CeilDiv(size - 1, ratings)
      case V05 => CeilDiv(size - 1, ratings)
  }

  /** Everything the ring pays: its attestations where receipts need them, and every receipt it issues. */
  function RingCost(v: Version, size: nat, ratings: nat): nat
    requires size >= 1
  {
    (if v.RequiresReceipts() then size * (size - 1) * ATTEST_COST else 0)
    + size * (size - 1) * ratings * RECEIPT_COST
  }

  // ---- one ring member ----

  /** The `q`-th member to rate `to`, in the order the ring goes round. */
  function Rater(to: nat, q: nat): Party
  {
    if q < to then Party(q) else Party(q + 1)
  }

  /** Members whose receipts found one of `to`'s first `n` open completions. */
  function RaterSet(to: nat, n: nat, ratings: nat): set<Party>
  {
    if ratings == 0 then {} else set j: nat | j < n :: Rater(to, j / ratings)
  }

  function OpenFor(to: Party): Completion -> bool
  {
    (c: Completion) => Open(c, to)
  }

  /** Member `b` after attesting `made` completions and being rated `calls` times. */
  ghost predicate Member(w: World, v: Version, b: nat, ratings: nat, made: nat, calls: nat)
  {
    var r := Agent(w, Party(b));
    var used := Min(made, calls);
    && r.completions == made && r.disputes == 0 && r.lastActivity == 0
    && (v.RequiresReceipts() ==>
          && r.raters == r.confirmations.Keys == RaterSet(b, used, ratings)
          && SumMap(r.confirmations) == used
          && CountIf(w.completions, OpenFor(Party(b))) == made - used)
  }

  ghost predicate Members(w: World, v: Version, ratings: nat, made: seq<nat>, calls: seq<nat>)
    requires |made| == |calls|
  {
    forall b: nat :: b < |made| ==> Member(w, v, b, ratings, made[b], calls[b])
  }

  ghost predicate Staked(w: World, v: Version, size: nat, n: nat)
  {
    forall b: nat :: b < size ==>
      Agent(w, Party(b)).lockedWei == if v.V05? && b < n then RingStake(size) else 0
  }

  function RingStake(size: nat): nat
  {
    Max(1, size - 1) * STAKE_PER_POINT_WEI
  }

  /** A receipt finds a completion exactly while one is open. */
  lemma OpenWhileCounted(cs: seq<Completion>, to: Party)
    ensures LatestOpen(cs, to).Some? <==> CountIf(cs, OpenFor(to)) > 0
  {
    CountNone(cs, OpenFor(to));
  }

  lemma RaterSetGrows(to: nat, n: nat, ratings: nat)
    requires ratings > 0
    ensures RaterSet(to, n + 1, ratings) == RaterSet(to, n, ratings) + {Rater(to, n / ratings)}
  {
  }

  lemma RaterInjective(to: nat, p: nat, q: nat)
    ensures Rater(to, p) == Rater(to, q) <==> p == q
  {
  }

  /** `n` calls reach the first ceil(n / ratings) raters, tested at rater `q`. */
  predicate RatersCounted(to: nat, n: nat, ratings: nat, q: nat)
    requires ratings > 0
  {
    && |RaterSet(to, n, ratings)| == CeilDiv(n, ratings)
    && (Rater(to, q) in RaterSet(to, n, ratings) <==> q < CeilDiv(n, ratings))
  }

  /** Raters come in order, `ratings` calls each. */
  lemma {:induction false} CountRaters(to: nat, n: nat, ratings: nat, q: nat)
    requires ratings > 0
    ensures RatersCounted(to, n, ratings, q)
  {
    if n == 0 {
      SmallQuotient(ratings - 1, ratings);
    } else {
      CountRaters(to, n - 1, ratings, q);
      CountRaters(to, n - 1, ratings, (n - 1) / ratings);
      OneMoreCall(to, n - 1, ratings, q);
    }
  }

  lemma OneMoreCall(to: nat, n: nat, ratings: nat, q: nat)
    requires ratings > 0 && RatersCounted(to, n, ratings, q) && RatersCounted(to, n, ratings, n / ratings)
    ensures RatersCounted(to, n + 1, ratings, q)
  {
    RaterSetGrows(to, n, ratings);
    CeilStep(n, ratings);
    OneMoreRater(RaterSet(to, n, ratings), CeilDiv(n, ratings), to, n / ratings, q);
  }

  lemma OneMoreRater(s: set<Party>, c: nat, to: nat, last: nat, q: nat)
    requires |s| == c && (c == last || c == last + 1)
    requires Rater(to, q) in s <==> q < c
    requires Rater(to, last) in s <==> last < c
    ensures |s + {Rater(to, last)}| == last + 1
    ensures Rater(to, q) in s + {Rater(to, last)} <==> q < last + 1
  {
    RaterInjective(to, q, last);
    if last < c {
      assert s + {Rater(to, last)} == s;
    }
  }

  lemma CeilStep(n: nat, r: nat)
    requires r > 0
    ensures CeilDiv(n + 1, r) == n / r + 1
    ensures CeilDiv(n, r) == n / r || CeilDiv(n, r) == n / r + 1
    ensures n / r < CeilDiv(n, r) ==> CeilDiv(n + 1, r) == CeilDiv(n, r)
  {
    QuotientShift(n, r);
    QuotientMonotone(n, n + r - 1, r);
    QuotientMonotone(n + r - 1, n + r, r);
  }

  // ---- one step ----

  lemma AttestMember(w: World, v: Version, p: Party, b: nat, ratings: nat, made: nat, calls: nat)
    requires Member(w, v, b, ratings, made, calls) && calls <= made
    ensures Member(Submit(w, p, 0), v, b, ratings, made + (if p == Party(b) then 1 else 0), calls)
  {
    CountAppend(w.completions, Completion(w.nextCompletionId, p, 0, false, false, None, None), OpenFor(Party(b)));
  }

  lemma ReceiptUsed(r: AgentState, r': AgentState, to: nat, ratings: nat, used: nat, from: Party)
    requires ratings > 0 && from == Rater(to, used / ratings)
    requires r.raters == r.confirmations.Keys == RaterSet(to, used, ratings)
    requires r'.confirmations == r.confirmations[from := Times(r.confirmations, from) + 1]
    requires r'.raters == r.raters + {from}
    ensures r'.raters == r'.confirmations.Keys == RaterSet(to, used + 1, ratings)
    ensures SumMap(r'.confirmations) == SumMap(r.confirmations) + 1
  {
    SumUpdate(r.confirmations, from, Times(r.confirmations, from) + 1);
    RaterSetGrows(to, used, ratings);
    assert r'.confirmations.Keys == r.confirmations.Keys + {from};
  }

  /** The record a receipt leaves, and the completion it uses up. */
  lemma ReceiptAt(w: World, v: Version, from: Party, to: Party)
    ensures
      var w' := GiveReceipt(w, v, from, to);
      var open := LatestOpen(w.completions, to);
      var r, r' := Agent(w, to), Agent(w', to);
      && r'.completions == r.completions && r'.disputes == r.disputes && r'.lastActivity == r.lastActivity
      && (v.RequiresReceipts() && open.None? ==>
            w'.completions == w.completions && r'.confirmations == r.confirmations && r'.raters == r.raters)
      && (v.RequiresReceipts() && open.Some? ==>
            && w'.completions
                 == w.completions[open.value := w.completions[open.value].(receiptFrom := Some(from))]
            && r'.confirmations == r.confirmations[from := Times(r.confirmations, from) + 1]
            && r'.raters == r.raters + {from})
  {
  }

  lemma ReceiptCloses(cs: seq<Completion>, from: Party, to: Party)
    requires LatestOpen(cs, to).Some?
    ensures
      var i := LatestOpen(cs, to).value;
      CountIf(cs[i := cs[i].(receiptFrom := Some(from))], OpenFor(to)) == CountIf(cs, OpenFor(to)) - 1
  {
    var i := LatestOpen(cs, to).value;
    CountUpdate(cs, i, cs[i].(receiptFrom := Some(from)), OpenFor(to));
  }

  /** A rating from the next rater in turn. It uses up a completion while one is open. */
  lemma RateMember(w: World, v: Version, from: Party, to: nat, ratings: nat, made: nat, calls: nat)
    requires Member(w, v, to, ratings, made, calls)
    requires ratings > 0 && from == Rater(to, calls / ratings)
    ensures Member(GiveReceipt(w, v, from, Party(to)), v, to, ratings, made, calls + 1)
  {
    OpenWhileCounted(w.completions, Party(to));
    ReceiptAt(w, v, from, Party(to));
    if v.RequiresReceipts() && LatestOpen(w.completions, Party(to)).Some? {
      ReceiptCloses(w.completions, from, Party(to));
      ReceiptUsed(Agent(w, Party(to)), Agent(GiveReceipt(w, v, from, Party(to)), Party(to)), to, ratings, calls, from);
    }
  }

  lemma RateOthers(w: World, v: Version, from: Party, to: Party, b: nat, ratings: nat, made: nat, calls: nat)
    requires Member(w, v, b, ratings, made, calls) && to != Party(b)
    ensures Member(GiveReceipt(w, v, from, to), v, b, ratings, made, calls)
  {
    var cs := w.completions;
    var open := LatestOpen(cs, to);
    if v.RequiresReceipts() && open.Some? {
      var i := open.value;
      CountUpdate(cs, i, cs[i].(receiptFrom := Some(from)), OpenFor(Party(b)));
    }
  }

  /** The ring as a whole: members, stakes and running cost. */
  ghost predicate Ring(w: World, v: Version, size: nat, ratings: nat, made: seq<nat>, calls: seq<nat>,
                       staked: nat, attests: nat, receipts: nat)
  {
    && |made| == |calls| == size
    && Members(w, v, ratings, made, calls)
    && Staked(w, v, size, staked)
    && SumSpent(w, 0, size) == attests * ATTEST_COST + receipts * RECEIPT_COST
  }

  lemma RingAttest(w: World, v: Version, size: nat, ratings: nat, made: seq<nat>, calls: seq<nat>,
                   staked: nat, attests: nat, receipts: nat, n: nat)
    requires Ring(w, v, size, ratings, made, calls, staked, attests, receipts)
    requires n < size && calls[n] <= made[n]
    requires forall b: nat :: b < size ==> calls[b] <= made[b]
    ensures Ring(Submit(w, Party(n), 0), v, size, ratings, made[n := made[n] + 1], calls, staked, attests + 1, receipts)
  {
    var w' := Submit(w, Party(n), 0);
    forall b: nat | b < size
      ensures Member(w', v, b, ratings, made[n := made[n] + 1][b], calls[b])
    {
      AttestMember(w, v, Party(n), b, ratings, made[b], calls[b]);
    }
    AttestMoney(w, Party(n));
    SumSpentCharged(w, w', 0, size, Party(n), ATTEST_COST);
    OneMore(attests, ATTEST_COST);
  }

  lemma OutsideAttest(w: World, v: Version, size: nat, ratings: nat, made: seq<nat>, calls: seq<nat>,
                      staked: nat, attests: nat, receipts: nat, p: Party)
    requires Ring(w, v, size, ratings, made, calls, staked, attests, receipts)
    requires !InBlock(p, 0, size) && forall b: nat :: b < size ==> calls[b] <= made[b]
    ensures Ring(Submit(w, p, 0), v, size, ratings, made, calls, staked, attests, receipts)
  {
    var w' := Submit(w, p, 0);
    forall b: nat | b < size
      ensures Member(w', v, b, ratings, made[b], calls[b])
    {
      AttestMember(w, v, p, b, ratings, made[b], calls[b]);
    }
    AttestMoney(w, p);
    SumSpentCharged(w, w', 0, size, p, ATTEST_COST);
  }

  lemma RingRate(w: World, v: Version, size: nat, ratings: nat, made: seq<nat>, calls: seq<nat>,
                 staked: nat, attests: nat, receipts: nat, from: nat, to: nat)
    requires from < size && to < size == |calls| && ratings > 0
    requires Party(from) == Rater(to, calls[to] / ratings)
    requires Ring(w, v, size, ratings, made, calls, staked, attests, receipts)
    ensures Ring(GiveReceipt(w, v, Party(from), Party(to)), v, size, ratings, made, calls[to := calls[to] + 1],
                 staked, attests, receipts + 1)
  {
    var w' := GiveReceipt(w, v, Party(from), Party(to));
    forall b: nat | b < size
      ensures Member(w', v, b, ratings, made[b], calls[to := calls[to] + 1][b])
    {
      if b == to {
        RateMember(w, v, Party(from), to, ratings, made[to], calls[to]);
      } else {
        RateOthers(w, v, Party(from), Party(to), b, ratings, made[b], calls[b]);
      }
    }
    RateMoney(w, v, Party(from), Party(to));
    SumSpentCharged(w, w', 0, size, Party(from), RECEIPT_COST);
    OneMore(receipts, RECEIPT_COST);
  }

  /** What honest agents do among themselves leaves the ring as it was. */
  lemma OutsideRate(w: World, v: Version, size: nat, ratings: nat, made: seq<nat>, calls: seq<nat>,
                    staked: nat, attests: nat, receipts: nat, from: Party, to: Party)
    requires Ring(w, v, size, ratings, made, calls, staked, attests, receipts)
    requires !InBlock(from, 0, size) && !InBlock(to, 0, size)
    ensures Ring(GiveReceipt(w, v, from, to), v, size, ratings, made, calls, staked, attests, receipts)
  {
    var w' := GiveReceipt(w, v, from, to);
    forall b: nat | b < size
      ensures Member(w', v, b, ratings, made[b], calls[b])
    {
      RateOthers(w, v, from, to, b, ratings, made[b], calls[b]);
    }
    RateMoney(w, v, from, to);
    SumSpentCharged(w, w', 0, size, from, RECEIPT_COST);
  }

  lemma OutsideDeposit(w: World, v: Version, params: Params, size: nat, ratings: nat, made: seq<nat>, calls: seq<nat>,
                       staked: nat, attests: nat, receipts: nat, p: Party, wei: nat)
    requires Ring(w, v, size, ratings, made, calls, staked, attests, receipts)
    requires !InBlock(p, 0, size)
    ensures Ring(Apply(w, v, params, Deposit(p, wei, 0)), v, size, ratings, made, calls, staked, attests, receipts)
  {
    var w' := Apply(w, v, params, Deposit(p, wei, 0));
    forall b: nat | b < size
      ensures Member(w', v, b, ratings, made[b], calls[b])
    {
      assert Member(w, v, b, ratings, made[b], calls[b]);
    }
    SumSpentCharged(w, w', 0, size, p, 0);
  }

  lemma RingDeposit(w: World, v: Version, params: Params, size: nat, ratings: nat, made: seq<nat>, calls: seq<nat>,
                    attests: nat, receipts: nat, n: nat)
    requires v.V05? && n < size
    requires Ring(w, v, size, ratings, made, calls, n, attests, receipts)
    ensures Ring(Apply(w, v, params, Deposit(Party(n), RingStake(size), 0)), v, size, ratings, made, calls,
                 n + 1, attests, receipts)
  {
    var w' := Apply(w, v, params, Deposit(Party(n), RingStake(size), 0));
    forall b: nat | b < size
      ensures Member(w', v, b, ratings, made[b], calls[b])
    {
      assert Member(w, v, b, ratings, made[b], calls[b]);
    }
    SumSpentCharged(w, w', 0, size, Party(n), 0);
  }

  // ---- the ring prepares ----

  function Zeros(size: nat): seq<nat>
  {
    seq(size, (b: nat) => 0)
  }

  /** Completions per member while member `from` is on its `k`-th. */
  function Made(size: nat, from: nat, k: nat): seq<nat>
    requires size >= 1
  {
    seq(size, (b: nat) => if b < from then size - 1 else if b == from then k else 0)
  }

  /** Each member stakes where the version asks, then attests once per other member. */
  method PrepareRing(sim: Simulator, size: nat, ghost ratings: nat)
    requires size >= 1 && sim.Value() == EMPTY_WORLD
    modifies sim
    ensures Ring(sim.Value(), sim.version, size, ratings, Made(size, size, 0), Zeros(size), size, size * (size - 1), 0)
  {
    FreshRing(sim.version, size, ratings);
    ghost var attests := 0;
    for from := 0 to size
      invariant Ring(sim.Value(), sim.version, size, ratings, Made(size, from, 0), Zeros(size), from, attests, 0)
      invariant attests == from * (size - 1)
    {
      attests := PrepareMember(sim, size, from, ratings, attests);
    }
  }

  method PrepareMember(sim: Simulator, size: nat, from: nat, ghost ratings: nat, ghost attests: nat)
    returns (ghost attests': nat)
    requires from < size
    requires Ring(sim.Value(), sim.version, size, ratings, Made(size, from, 0), Zeros(size), from, attests, 0)
    modifies sim
    ensures Ring(sim.Value(), sim.version, size, ratings, Made(size, from + 1, 0), Zeros(size), from + 1, attests', 0)
    ensures attests' == attests + (size - 1)
  {
    attests' := attests;
    if sim.version.V05? {
      RingDeposit(sim.Value(), sim.version, sim.params, size, ratings, Made(size, from, 0), Zeros(size), attests, 0,
                  from);
      sim.LockCapital(Party(from), CapitalRequiredForScore(Max(1, size - 1)));
    }
    for k := 0 to size - 1
      invariant Ring(sim.Value(), sim.version, size, ratings, Made(size, from, k), Zeros(size), from + 1, attests', 0)
      invariant attests' == attests + k
    {
      attests' := AttestForRing(sim, size, from, k, ratings, attests');
    }
    assert Made(size, from, size - 1) == Made(size, from + 1, 0);
  }

  method AttestForRing(sim: Simulator, size: nat, from: nat, ghost k: nat, ghost ratings: nat, ghost attests: nat)
    returns (ghost attests': nat)
    requires from < size && k < size - 1
    requires Ring(sim.Value(), sim.version, size, ratings, Made(size, from, k), Zeros(size), from + 1, attests, 0)
    modifies sim
    ensures Ring(sim.Value(), sim.version, size, ratings, Made(size, from, k + 1), Zeros(size), from + 1, attests', 0)
    ensures attests' == attests + 1
  {
    RingAttest(sim.Value(), sim.version, size, ratings, Made(size, from, k), Zeros(size), from + 1, attests, 0, from);
    assert Made(size, from, k)[from := k + 1] == Made(size, from, k + 1);
    var id := sim.Attest(Party(from), 0);
    attests' := attests + 1;
  }

  lemma FreshRing(v: Version, size: nat, ratings: nat)
    requires size >= 1
    ensures Ring(EMPTY_WORLD, v, size, ratings, Made(size, 0, 0), Zeros(size), 0, 0, 0)
    ensures !v.RequiresReceipts() ==> Ring(EMPTY_WORLD, v, size, ratings, Zeros(size), Zeros(size), size, 0, 0)
  {
    assert Made(size, 0, 0) == Zeros(size);
    forall b: nat | b < size
      ensures Member(EMPTY_WORLD, v, b, ratings, 0, 0)
    {
      assert RaterSet(b, 0, ratings) == {};
    }
    NobodySpent(EMPTY_WORLD, 0, size);
  }

  /** Honest agents stake and attest too; the ring does not notice. */
  method PrepareHonest(sim: Simulator, config: CollusionConfig, ghost made: seq<nat>, ghost calls: seq<nat>,
                       ghost staked: nat, ghost attests: nat)
    requires config.ringSize <= HONEST_BASE
    requires Ring(sim.Value(), sim.version, config.ringSize, config.ratingsPerPair, made, calls, staked, attests, 0)
    requires forall b: nat :: b < config.ringSize ==> calls[b] <= made[b]
    modifies sim
    ensures Ring(sim.Value(), sim.version, config.ringSize, config.ratingsPerPair, made, calls, staked, attests, 0)
  {
    for h := 0 to config.honestAgents
      invariant Ring(sim.Value(), sim.version, config.ringSize, config.ratingsPerPair, made, calls, staked, attests, 0)
    {
      var from := Party(HONEST_BASE + h);
      if sim.version.V05? {
        var wei := CapitalRequiredForScore(Max(1, config.honestRatings));
        OutsideDeposit(sim.Value(), sim.version, sim.params, config.ringSize, config.ratingsPerPair, made, calls,
                       staked, attests, 0, from, wei);
        sim.LockCapital(from, wei);
      }
      for k := 0 to config.honestRatings
        invariant Ring(sim.Value(), sim.version, config.ringSize, config.ratingsPerPair, made, calls, staked, attests,
                       0)
      {
        OutsideAttest(sim.Value(), sim.version, config.ringSize, config.ratingsPerPair, made, calls, staked, attests,
                      0, from);
        var id := sim.Attest(from, 0);
      }
    }
  }

  // ---- the ring rates itself ----

  /** Members that have finished rating `b` once `from` of them have gone round. */
  function Rank(b: nat, from: nat): nat
  {
    if b < from then from - 1 else from
  }

  function CallsTo(b: nat, ratings: nat, from: nat, to: nat, k: nat): nat
  {
    Rank(b, from) * ratings + (if b == from then 0 else if b < to then ratings else if b == to then k else 0)
  }

  /** Ratings each member has received when `from` is on its `k`-th rating of `to`. */
  function Calls(size: nat, ratings: nat, from: nat, to: nat, k: nat): seq<nat>
  {
    seq(size, (b: nat) => CallsTo(b, ratings, from, to, k))
  }

  lemma QuotientPlus(q: nat, k: nat, r: nat)
    requires k < r
    ensures (q * r + k) / r == q
  {
    var a := q * r + k;
    QuotientRemainder(a, r);
    ScaleIf(q + 1, a / r, r);
    ScaleIf(a / r + 1, q, r);
    assert r * (q + 1) == q * r + r && r * (a / r + 1) == r * (a / r) + r;
  }

  /** Member `from` is the next rater in turn of every `to` it reaches. */
  lemma NextRater(size: nat, ratings: nat, from: nat, to: nat, k: nat)
    requires from < size && to < size && from != to && k < ratings
    ensures Party(from) == Rater(to, Calls(size, ratings, from, to, k)[to] / ratings)
  {
    QuotientPlus(Rank(to, from), k, ratings);
  }

  lemma OneCallMore(size: nat, ratings: nat, from: nat, to: nat, k: nat)
    requires from < size && to < size && from != to
    ensures var calls := Calls(size, ratings, from, to, k);
      calls[to := calls[to] + 1] == Calls(size, ratings, from, to, k + 1)
  {
  }

  lemma CallsAdvance(size: nat, ratings: nat, from: nat, to: nat)
    requires from < size && to < size
    ensures from != to ==> Calls(size, ratings, from, to, ratings) == Calls(size, ratings, from, to + 1, 0)
    ensures from == to ==> Calls(size, ratings, from, to, 0) == Calls(size, ratings, from, to + 1, 0)
  {
  }

  lemma CallsNextFrom(size: nat, ratings: nat, from: nat)
    requires from < size
    ensures Calls(size, ratings, from, size, 0) == Calls(size, ratings, from + 1, 0, 0)
  {
    forall b: nat | b < size
      ensures Calls(size, ratings, from, size, 0)[b] == Calls(size, ratings, from + 1, 0, 0)[b]
    {
      if b != from {
        assert Rank(b, from + 1) == Rank(b, from) + 1;
        assert (Rank(b, from) + 1) * ratings == Rank(b, from) * ratings + ratings;
      }
    }
  }

  /** One rating of the ordered pair. */
  method RateOnce(sim: Simulator, ghost size: nat, ghost ratings: nat, from: nat, to: nat, ghost k: nat,
                  ghost made: seq<nat>, ghost attests: nat, ghost receipts: nat)
    requires from < size && to < size && from != to && k < ratings
    requires Ring(sim.Value(), sim.version, size, ratings, made, Calls(size, ratings, from, to, k), size, attests,
                  receipts)
    modifies sim
    ensures Ring(sim.Value(), sim.version, size, ratings, made, Calls(size, ratings, from, to, k + 1), size, attests,
                 receipts + 1)
  {
    NextRater(size, ratings, from, to, k);
    RingRate(sim.Value(), sim.version, size, ratings, made, Calls(size, ratings, from, to, k), size, attests,
             receipts, from, to);
    OneCallMore(size, ratings, from, to, k);
    sim.Rate(Party(from), Party(to));
  }

  /** One ordered pair: `ratings` receipts, and as many edges when the version records a graph. */
  method RatePair(sim: Simulator, size: nat, ratings: nat, from: nat, to: nat, edges: seq<Edge>,
                  ghost made: seq<nat>, ghost attests: nat, ghost receipts: nat)
    returns (edges': seq<Edge>)
    requires from < size && to < size && from != to
    requires Ring(sim.Value(), sim.version, size, ratings, made, Calls(size, ratings, from, to, 0), size, attests,
                  receipts)
    requires Within(edges, size)
    modifies sim
    ensures Ring(sim.Value(), sim.version, size, ratings, made, Calls(size, ratings, from, to + 1, 0), size, attests,
                 receipts + ratings)
    ensures edges <= edges' && Within(edges', size) && (ratings == 0 ==> edges' == edges)
    ensures sim.version.RequiresReceipts() && ratings > 0 ==> Edge(Party(from), Party(to)) in edges'
  {
    edges' := edges;
    for k := 0 to ratings
      invariant Ring(sim.Value(), sim.version, size, ratings, made, Calls(size, ratings, from, to, k), size, attests,
                     receipts + k)
      invariant edges <= edges' && Within(edges', size) && (k == 0 ==> edges' == edges)
      invariant sim.version.RequiresReceipts() && k > 0 ==> Edge(Party(from), Party(to)) in edges'
    {
      RateOnce(sim, size, ratings, from, to, k, made, attests, receipts + k);
      if sim.version.RequiresReceipts() {
        edges' := edges' + [Edge(Party(from), Party(to))];
      }
    }
    CallsAdvance(size, ratings, from, to);
  }

  /** Member `from` rates everybody else. */
  method RateEverybody(sim: Simulator, size: nat, ratings: nat, from: nat, edges: seq<Edge>,
                       ghost made: seq<nat>, ghost attests: nat, ghost receipts: nat)
    returns (edges': seq<Edge>)
    requires from < size
    requires Ring(sim.Value(), sim.version, size, ratings, made, Calls(size, ratings, from, 0, 0), size, attests,
                  receipts)
    requires Within(edges, size)
    modifies sim
    ensures Ring(sim.Value(), sim.version, size, ratings, made, Calls(size, ratings, from + 1, 0, 0), size, attests,
                 receipts + (size - 1) * ratings)
    ensures edges <= edges' && Within(edges', size) && (ratings == 0 ==> edges' == edges)
    ensures sim.version.RequiresReceipts() && ratings > 0 ==> RatedBelow(edges', from, size)
  {
    edges' := edges;
    ghost var n := receipts;
    for to := 0 to size
      invariant n == receipts + Issued(from, to, ratings)
      invariant Ring(sim.Value(), sim.version, size, ratings, made, Calls(size, ratings, from, to, 0), size, attests, n)
      invariant edges <= edges' && Within(edges', size) && (ratings == 0 ==> edges' == edges)
      invariant sim.version.RequiresReceipts() && ratings > 0 ==> RatedBelow(edges', from, to)
    {
      edges', n := RateUnlessSelf(sim, size, ratings, from, to, edges', made, attests, n);
    }
    CallsNextFrom(size, ratings, from);
    IssuedIs(from, size, ratings);
  }

  /** Receipts `from` has issued once it has been through the members before `to`. */
  function Issued(from: nat, to: nat, ratings: nat): nat
  {
    if to == 0 then 0 else Issued(from, to - 1, ratings) + (if to - 1 == from then 0 else ratings)
  }

  lemma {:induction false} IssuedIs(from: nat, to: nat, ratings: nat)
    ensures Issued(from, to, ratings) == Rank(from, to) * ratings
  {
    if to > 0 {
      IssuedIs(from, to - 1, ratings);
      OneMore(Rank(from, to - 1), ratings);
    }
  }

  /** Member `from` rates member `to`, unless they are the same. */
  method RateUnlessSelf(sim: Simulator, size: nat, ratings: nat, from: nat, to: nat, edges: seq<Edge>,
                        ghost made: seq<nat>, ghost attests: nat, ghost receipts: nat)
    returns (edges': seq<Edge>, ghost receipts': nat)
    requires from < size && to < size
    requires Ring(sim.Value(), sim.version, size, ratings, made, Calls(size, ratings, from, to, 0), size, attests,
                  receipts)
    requires Within(edges, size)
    modifies sim
    ensures receipts' == if to == from then receipts else receipts + ratings
    ensures Ring(sim.Value(), sim.version, size, ratings, made, Calls(size, ratings, from, to + 1, 0), size, attests,
                 receipts')
    ensures edges <= edges' && Within(edges', size) && (ratings == 0 ==> edges' == edges)
    ensures sim.version.RequiresReceipts() && ratings > 0 && to != from ==> Edge(Party(from), Party(to)) in edges'
  {
    edges', receipts' := edges, receipts;
    CallsAdvance(size, ratings, from, to);
    if to != from {
      edges' := RatePair(sim, size, ratings, from, to, edges, made, attests, receipts);
      receipts' := receipts + ratings;
    }
  }

  method RateRing(sim: Simulator, size: nat, ratings: nat, ghost made: seq<nat>, ghost attests: nat)
    returns (edges: seq<Edge>)
    requires size >= 1
    requires Ring(sim.Value(), sim.version, size, ratings, made, Zeros(size), size, attests, 0)
    modifies sim
    ensures Ring(sim.Value(), sim.version, size, ratings, made, Calls(size, ratings, size, 0, 0), size, attests,
                 size * ((size - 1) * ratings))
    ensures Within(edges, size) && (ratings == 0 ==> edges == [])
    ensures sim.version.RequiresReceipts() && ratings > 0 ==> RatedAll(edges, size, size)
  {
    edges := [];
    assert Zeros(size) == Calls(size, ratings, 0, 0, 0);
    ghost var n := 0;
    for from := 0 to size
      invariant n == from * ((size - 1) * ratings)
      invariant Ring(sim.Value(), sim.version, size, ratings, made, Calls(size, ratings, from, 0, 0), size, attests, n)
      invariant Within(edges, size) && (ratings == 0 ==> edges == [])
      invariant sim.version.RequiresReceipts() && ratings > 0 ==> RatedAll(edges, size, from)
    {
      ghost var before := edges;
      edges := RateEverybody(sim, size, ratings, from, edges, made, attests, n);
      if sim.version.RequiresReceipts() && ratings > 0 {
        MoreEdgesKeep(before, edges, size, from);
      }
      n := n + (size - 1) * ratings;
      assert (from + 1) * ((size - 1) * ratings) == from * ((size - 1) * ratings) + (size - 1) * ratings;
    }
  }

  /** What the first `h` honest agents leave in the graph, where the version records one. */
  function CrowdEdges(v: Version, choices: seq<seq<Party>>, h: nat): seq<Edge>
    requires h <= |choices|
  {
    if v.RequiresReceipts() then HonestEdges(choices[..h], HONEST_BASE) else []
  }

  function OwnEdges(v: Version, h: nat, chosen: seq<Party>): seq<Edge>
  {
    if v.RequiresReceipts() then EdgesFrom(Party(HONEST_BASE + h), chosen) else []
  }

  lemma CrowdEdgesNext(v: Version, choices: seq<seq<Party>>, h: nat)
    requires h < |choices|
    ensures CrowdEdges(v, choices, h + 1) == CrowdEdges(v, choices, h) + OwnEdges(v, h, choices[h])
  {
    assert choices[..h + 1][..h] == choices[..h];
  }

  lemma OwnEdgesNext(v: Version, h: nat, chosen: seq<Party>, r: nat)
    requires r < |chosen|
    ensures var last := [Edge(Party(HONEST_BASE + h), chosen[r])];
      OwnEdges(v, h, chosen[..r + 1]) == OwnEdges(v, h, chosen[..r]) + (if v.RequiresReceipts() then last else [])
  {
    assert chosen[..r + 1][..r] == chosen[..r];
  }

  /** The honest crowd's own ratings; `choices[h][r]` is whom agent `h` rates. */
  method RateHonest(sim: Simulator, config: CollusionConfig, choices: seq<seq<Party>>, edges: seq<Edge>,
                    ghost made: seq<nat>, ghost calls: seq<nat>, ghost attests: nat, ghost receipts: nat)
    returns (edges': seq<Edge>)
    requires config.ringSize <= HONEST_BASE && HonestChoices(config, choices)
    requires Ring(sim.Value(), sim.version, config.ringSize, config.ratingsPerPair, made, calls, config.ringSize,
                  attests, receipts)
    modifies sim
    ensures Ring(sim.Value(), sim.version, config.ringSize, config.ratingsPerPair, made, calls, config.ringSize,
                 attests, receipts)
    ensures edges' == edges + CrowdEdges(sim.version, choices, |choices|)
  {
    edges' := edges;
    for h := 0 to config.honestAgents
      invariant Ring(sim.Value(), sim.version, config.ringSize, config.ratingsPerPair, made, calls, config.ringSize,
                     attests, receipts)
      invariant edges' == edges + CrowdEdges(sim.version, choices, h)
    {
      edges' := RateAsChosen(sim, config, choices, h, edges', made, calls, attests, receipts);
      CrowdEdgesNext(sim.version, choices, h);
    }
  }

  /** The ratings of one honest agent. */
  method RateAsChosen(sim: Simulator, config: CollusionConfig, choices: seq<seq<Party>>, h: nat, edges: seq<Edge>,
                      ghost made: seq<nat>, ghost calls: seq<nat>, ghost attests: nat, ghost receipts: nat)
    returns (edges': seq<Edge>)
    requires config.ringSize <= HONEST_BASE && HonestChoices(config, choices) && h < config.honestAgents
    requires Ring(sim.Value(), sim.version, config.ringSize, config.ratingsPerPair, made, calls, config.ringSize,
                  attests, receipts)
    modifies sim
    ensures Ring(sim.Value(), sim.version, config.ringSize, config.ratingsPerPair, made, calls, config.ringSize,
                 attests, receipts)
    ensures edges' == edges + OwnEdges(sim.version, h, choices[h])
  {
    edges' := edges;
    for r := 0 to config.honestRatings
      invariant Ring(sim.Value(), sim.version, config.ringSize, config.ratingsPerPair, made, calls, config.ringSize,
                     attests, receipts)
      invariant edges' == edges + OwnEdges(sim.version, h, choices[h][..r])
    {
      var from, to := Party(HONEST_BASE + h), choices[h][r];
      OutsideRate(sim.Value(), sim.version, config.ringSize, config.ratingsPerPair, made, calls, config.ringSize,
                  attests, receipts, from, to);
      sim.Rate(from, to);
      if sim.version.RequiresReceipts() {
        edges' := edges' + [Edge(from, to)];
      }
      OwnEdgesNext(sim.version, h, choices[h], r);
    }
    assert choices[h][..config.honestRatings] == choices[h];
  }

  /** Any honest pattern: nobody rates themselves or anybody outside the crowd. */
  predicate HonestChoices(config: CollusionConfig, choices: seq<seq<Party>>)
  {
    && |choices| == config.honestAgents
    && forall h :: 0 <= h < |choices| ==>
         && |choices[h]| == config.honestRatings
         && forall r :: 0 <= r < |choices[h]| ==>
              InBlock(choices[h][r], HONEST_BASE, config.honestAgents) && choices[h][r] != Party(HONEST_BASE + h)
  }

  // ---- what the ring earned ----

  /** The finished ring: every member fully attested and rated by everybody else. */
  lemma RingEarns(w: World, v: Version, params: Params, size: nat, ratings: nat, attests: nat, receipts: nat)
    requires size >= 1
    requires Ring(w, v, size, ratings, if v.RequiresReceipts() then Made(size, size, 0) else Zeros(size),
                  Calls(size, ratings, size, 0, 0), size, attests, receipts)
    ensures forall b: nat :: b < size ==> Score(w, v, params, Party(b), 0) == RingScore(v, size, ratings)
  {
    forall b: nat | b < size
      ensures Score(w, v, params, Party(b), 0) == RingScore(v, size, ratings)
    {
      var made := if v.RequiresReceipts() then Made(size, size, 0) else Zeros(size);
      var calls := Calls(size, ratings, size, 0, 0);
      assert Member(w, v, b, ratings, made[b], calls[b]);
      MemberEarns(w, v, params, b, size, ratings);
    }
  }

  lemma MemberEarns(w: World, v: Version, params: Params, b: nat, size: nat, ratings: nat)
    requires b < size
    requires Member(w, v, b, ratings, if v.RequiresReceipts() then size - 1 else 0, (size - 1) * ratings)
    requires v.V05? ==> Agent(w, Party(b)).lockedWei == RingStake(size)
    ensures Score(w, v, params, Party(b), 0) == RingScore(v, size, ratings)
  {
    var r := Agent(w, Party(b));
    UndisputedScore(w, v, params, Party(b));
    AtLeastOnce(size - 1, ratings);
    if v.RequiresReceipts() {
      MemberSignal(r, v, b, size, ratings);
    }
    if v.V05? {
      if ratings > 0 {
        CeilAtMost(size - 1, ratings);
      }
      StakeCovers(r, size);
    }
  }

  lemma AtLeastOnce(a: nat, b: nat)
    ensures b > 0 ==> a * b >= a
    ensures b == 0 ==> a * b == 0
  {
  }

  lemma UndisputedScore(w: World, v: Version, params: Params, p: Party)
    requires Agent(w, p).lastActivity == 0 && Agent(w, p).disputes == 0
    ensures var signal := NetSignal(Agent(w, p), v);
      Score(w, v, params, p, 0) == if v.V05? then Min(signal, StakeCap(Agent(w, p))) else signal
  {
  }

  lemma StakeCovers(r: AgentState, size: nat)
    requires r.lockedWei == RingStake(size)
    ensures StakeCap(r) == Max(1, size - 1)
  {
  }

  lemma MemberSignal(r: AgentState, v: Version, b: nat, size: nat, ratings: nat)
    requires size >= 1 && v.RequiresReceipts()
    requires var used := if ratings > 0 then size - 1 else 0;
      r.raters == RaterSet(b, used, ratings) && SumMap(r.confirmations) == used
    ensures NetSignal(r, v) == RingScore(v, size, ratings)
  {
    if ratings > 0 {
      CountRaters(b, size - 1, ratings, 0);
    }
  }

  lemma CeilAtMost(a: nat, b: nat)
    requires b > 0
    ensures CeilDiv(a, b) <= a
    ensures a > 0 ==> CeilDiv(a, b) > 0
  {
    var c := CeilDiv(a, b);
    QuotientRemainder(a + b - 1, b);
    ScaleIf(a + 1, c, b);
    assert b * (a + 1) == a * b + b;
    Scale(1, b, a);
    if a > 0 {
      QuotientMonotone(b, a + b - 1, b);
      assert b / b == 1;
    }
  }

  // ---- what the ring pays per point ----

  function HonestCostPerPoint(v: Version): nat
  {
    if v.RequiresReceipts() then ATTEST_COST + RECEIPT_COST else RECEIPT_COST
  }

  /** Under the receipt-based versions the ring never buys points below the
      honest price, and pays exactly that price only with one rating per pair. */
  lemma RingNeverCheaper(v: Version, size: nat, ratings: nat)
    requires v.RequiresReceipts() && size >= 2 && ratings >= 1
    ensures var points := size * RingScore(v, size, ratings);
      && points > 0
      && RingCost(v, size, ratings) >= HonestCostPerPoint(v) * points
      && (RingCost(v, size, ratings) == HonestCostPerPoint(v) * points <==> ratings == 1)
      && (ratings >= 2 ==> RingCost(v, size, ratings) >= (ATTEST_COST + 2 * RECEIPT_COST) * points)
  {
    var score := RingScore(v, size, ratings);
    CeilAtMost(size - 1, ratings);
    var pairs, points := size * (size - 1), size * score;
    Scale(score, size - 1, size);
    Scale(1, score, size);
    assert points <= pairs;
    PriceOfPairs(pairs, points, ratings);
    assert RingCost(v, size, ratings) == pairs * ATTEST_COST + pairs * ratings * RECEIPT_COST;
    if ratings == 1 {
      assert CeilDiv(size - 1, 1) == size - 1;
      assert points == pairs;
    }
  }

  lemma PriceOfPairs(pairs: nat, points: nat, ratings: nat)
    requires 0 < points <= pairs && ratings >= 1
    ensures var cost := pairs * ATTEST_COST + pairs * ratings * RECEIPT_COST;
      && cost >= (ATTEST_COST + RECEIPT_COST) * points
      && (ratings >= 2 ==> cost >= (ATTEST_COST + 2 * RECEIPT_COST) * points > (ATTEST_COST + RECEIPT_COST) * points)
      && (ratings == 1 && points == pairs ==> cost == (ATTEST_COST + RECEIPT_COST) * points)
  {
    var a, r := ATTEST_COST, RECEIPT_COST;
    Scale(points, pairs, a);
    Scale(1, ratings, pairs);
    Scale(points, pairs * ratings, r);
    assert (a + r) * points == points * a + points * r;
    if ratings >= 2 {
      Scale(2, ratings, pairs);
      Scale(2 * points, pairs * ratings, r);
      assert (a + 2 * r) * points == points * a + (2 * points) * r;
      Scale(1, points, r);
      assert r > 0;
    }
  }

  /** Resistance in tenths of a percent, rounded to the nearest. */
  function ResistanceScore(ringScore: int, efficiency: real): real
  {
    if ringScore == 0 then 100.0
    else if efficiency >= 1.0 then 0.0
    else (((1.0 - efficiency) * 1000.0 + 0.5).Floor as real) / 10.0
  }

  /** The score is the money wasted, in percent, to the nearest tenth. */
  lemma ResistanceIsRounded(ringScore: int, efficiency: real)
    requires ringScore != 0 && 0.0 <= efficiency < 1.0
    ensures
      var score := ResistanceScore(ringScore, efficiency);
      && -0.05 < score - 100.0 * (1.0 - efficiency) <= 0.05
      && 10.0 * score == (10.0 * score).Floor as real
  {
    var x := (1.0 - efficiency) * 1000.0 + 0.5;
    assert x.Floor as real <= x < x.Floor as real + 1.0;
    assert 10.0 * ResistanceScore(ringScore, efficiency) == x.Floor as real;
  }

  function CostPerRingPoint(cost: nat, size: nat, score: int): real
  {
    (cost as real) / (Max(1, size * score) as real)
  }

  function Efficiency(v: Version, costPerPoint: real): real
  {
    if costPerPoint > 0.0 then (HonestCostPerPoint(v) as real) / costPerPoint else 0.0
  }

  lemma CrossMultiply(h: nat, cost: nat, points: nat, bound: nat)
    requires points > 0 && cost > 0 && bound > 0
    requires cost >= bound * points
    ensures (cost as real) / (points as real) >= bound as real
    ensures (h as real) / ((cost as real) / (points as real)) <= (h as real) / (bound as real)
  {
    assert (bound * points) as real == (bound as real) * (points as real);
    AtLeastPerPoint(cost as real, points as real, bound as real);
    DivideByMore(h as real, (cost as real) / (points as real), bound as real);
  }

  lemma AtLeastPerPoint(c: real, p: real, b: real)
    requires p > 0.0 && c >= b * p
    ensures c / p >= b
  {
    assert (c / p) * p == c;
  }

  lemma DivideByMore(h: real, x: real, b: real)
    requires h >= 0.0 && x >= b > 0.0
    ensures h / x <= h / b
  {
    var p, q := h / x, h / b;
    assert p * x == h && q * b == h && q >= 0.0;
    assert q * x >= h;
  }

  /** The resistance score is zero exactly when the ring rates each pair once:
      redundant ratings only waste its money. */
  lemma ResistanceZeroIffSingleRating(v: Version, size: nat, ratings: nat)
    requires v.RequiresReceipts() && size >= 2 && ratings >= 1
    ensures
      var score := RingScore(v, size, ratings);
      var perPoint := CostPerRingPoint(RingCost(v, size, ratings), size, score);
      ResistanceScore(score, Efficiency(v, perPoint)) == 0.0 <==> ratings == 1
  {
    var score, cost := RingScore(v, size, ratings), RingCost(v, size, ratings);
    var points := size * score;
    RingNeverCheaper(v, size, ratings);
    var perPoint := (cost as real) / (points as real);
    var h := HonestCostPerPoint(v);
    if ratings == 1 {
      assert cost == h * points;
      CrossMultiply(h, cost, points, h);
      assert (h * points) as real == (h as real) * (points as real);
      assert perPoint == h as real;
    } else {
      var bound := ATTEST_COST + 2 * RECEIPT_COST;
      CrossMultiply(h, cost, points, bound);
      var ratio := (h as real) / perPoint;
      assert (h as real) / (bound as real) < 0.7;
      assert (1.0 - ratio) * 1000.0 + 0.5 > 300.0;
      assert ((1.0 - ratio) * 1000.0 + 0.5).Floor >= 300;
    }
  }

  // ---- the driver ----

  datatype CollusionResult = CollusionResult(ringScorePerAgent: int, ringCostWei: int, costPerRingPointWei: real,
                                             honestCostPerPointWei: nat, efficiencyRatio: real,
                                             detection: Option<Detection>)

  /** The thresholds the scenario hands its detectors. */
  function DetectorThresholds(config: CollusionConfig): Thresholds
  {
    Thresholds(config.reciprocityThreshold, Max(3, (config.ringSize - 1) / 2), config.coreThreshold)
  }

  /** Asking for three partners, or half the ring, misses only rings below four. */
  lemma PartnersAskedFor(config: CollusionConfig)
    requires config.ringSize >= 1
    ensures DetectorThresholds(config).minPartners <= config.ringSize - 1 <==> config.ringSize >= 4
  {
  }

  /** Both accounts are in the ring. */
  predicate RingPair(e: Edge, size: nat)
  {
    InBlock(e.from, 0, size) && InBlock(e.to, 0, size) && e.from != e.to
  }

  /** The rating is one an honest agent chose to give. */
  predicate ChosenPair(e: Edge, choices: seq<seq<Party>>)
  {
    exists h, r :: 0 <= h < |choices| && 0 <= r < |choices[h]| && e == Edge(Party(1000 + h), choices[h][r])
  }

  /** The edges are all ring pairs, if the ring rates at all, and all ratings the honest agents chose to give. */
  ghost predicate IsRecord(edges: seq<Edge>, config: CollusionConfig, choices: seq<seq<Party>>)
  {
    forall e :: e in edges <==>
      (config.ratingsPerPair >= 1 && RingPair(e, config.ringSize)) || ChosenPair(e, choices)
  }

  /** The detectors' figures are the exact evaluation of what they flag on the graph of just those edges. */
  ghost predicate DetectedOn(d: Detection, config: CollusionConfig, choices: seq<seq<Party>>)
  {
    exists g: Graph, edges: seq<Edge> ::
      && IsRecord(edges, config, choices)
      && Represents(g, edges, Ids(0, config.ringSize) + Ids(1000, config.honestAgents))
      && Judges(d, g, DetectorThresholds(config), Ids(0, config.ringSize))
  }

  lemma {:induction false} ChosenIff(choices: seq<seq<Party>>, e: Edge)
    ensures e in HonestEdges(choices, HONEST_BASE) <==> ChosenPair(e, choices)
  {
    HonestEdgeIff(choices, HONEST_BASE, e);
    var h := e.from.id - HONEST_BASE;
    if e.to in Chosen(choices, h) {
      var r :| 0 <= r < |choices[h]| && choices[h][r] == e.to;
      assert e == Edge(Party(1000 + h), choices[h][r]);
    }
  }

  lemma RingEdgeIff(ring: seq<Edge>, size: nat, e: Edge)
    requires Within(ring, size) && RatedAll(ring, size, size)
    ensures e in ring <==> RingPair(e, size)
  {
    if RingPair(e, size) {
      assert RatedBelow(ring, e.from.id, size);
      assert Edge(Party(e.from.id), Party(e.to.id)) in ring;
    }
  }

  lemma CrowdIsSeparate(config: CollusionConfig, choices: seq<seq<Party>>, ring: seq<Edge>)
    requires config.ringSize <= HONEST_BASE && HonestChoices(config, choices) && Within(ring, config.ringSize)
    ensures KeepToThemselves(choices, HONEST_BASE)
    ensures Separated(ring + HonestEdges(choices, HONEST_BASE), config.ringSize)
  {
    forall e | e in HonestEdges(choices, HONEST_BASE)
      ensures e.from != e.to && !InBlock(e.from, 0, config.ringSize) && !InBlock(e.to, 0, config.ringSize)
    {
      ChosenIff(choices, e);
    }
  }

  /** The whole scenario, for every honest rating pattern. A rated ring of two or
      more is found whole or not at all by each detector, as its threshold says, and whom they
      flag besides follows from the honest choices alone. */
  method RunCollusiveRing(version: Version, params: Params, config: CollusionConfig, choices: seq<seq<Party>>)
    returns (r: CollusionResult)
    requires 1 <= config.ringSize <= HONEST_BASE && HonestChoices(config, choices)
    ensures r.ringScorePerAgent == RingScore(version, config.ringSize, config.ratingsPerPair)
    ensures r.ringCostWei == RingCost(version, config.ringSize, config.ratingsPerPair)
    ensures r.costPerRingPointWei
         == (r.ringCostWei as real) / (Max(1, config.ringSize * r.ringScorePerAgent) as real)
    ensures r.costPerRingPointWei > 0.0 ==>
              r.efficiencyRatio == (r.honestCostPerPointWei as real) / r.costPerRingPointWei
    ensures r.costPerRingPointWei <= 0.0 ==> r.efficiencyRatio == 0.0
    ensures r.costPerRingPointWei <= 0.0 ==> r.ringScorePerAgent == 0
    ensures r.honestCostPerPointWei == if version.RequiresReceipts() then ATTEST_COST + RECEIPT_COST else RECEIPT_COST
    ensures r.detection.Some? <==> version.RequiresReceipts()
    ensures r.detection.Some? ==> DetectedOn(r.detection.value, config, choices)
    ensures r.detection.Some? ==>
              CrowdVerdict(r.detection.value, choices, 1000,
                           Thresholds(config.reciprocityThreshold, Max(3, (config.ringSize - 1) / 2),
                                      config.coreThreshold))
    ensures r.detection.Some? && config.ringSize >= 2 && config.ratingsPerPair >= 1
        ==> RingVerdict(r.detection.value, config.ringSize, DetectorThresholds(config))
            && Finds(r.detection.value.mutualDegree, config.ringSize, config.ringSize >= 4)
  {
    PartnersAskedFor(config);
    var sim := new Simulator(version, params);
    var size := config.ringSize;
    ghost var attests := if version.RequiresReceipts() then size * (size - 1) else 0;
    var edges;
    ghost var ring;
    edges, ring := RunRatings(sim, config, choices, attests);
    var score, cost := Reckon(sim, size, config.ratingsPerPair, attests);
    var perPoint := CostPerRingPoint(cost, size, score);
    NoFreePoints(version, size, config.ratingsPerPair);
    var detection := None;
    if version.RequiresReceipts() {
      var d := DetectAll(config, choices, edges, ring);
      detection := Some(d);
    }
    r := CollusionResult(score, cost, perPoint, HonestCostPerPoint(version), Efficiency(version, perPoint), detection);
  }

  lemma RecordIs(config: CollusionConfig, choices: seq<seq<Party>>, ring: seq<Edge>)
    requires Within(ring, config.ringSize)
    requires if config.ratingsPerPair == 0 then ring == [] else RatedAll(ring, config.ringSize, config.ringSize)
    ensures IsRecord(ring + HonestEdges(choices, HONEST_BASE), config, choices)
  {
    forall e
      ensures e in ring + HonestEdges(choices, HONEST_BASE)
         <==> (config.ratingsPerPair >= 1 && RingPair(e, config.ringSize)) || ChosenPair(e, choices)
    {
      ChosenIff(choices, e);
      if config.ratingsPerPair > 0 {
        RingEdgeIff(ring, config.ringSize, e);
      }
    }
  }

  lemma DetectionFits(d: Detection, g: Graph, config: CollusionConfig, choices: seq<seq<Party>>, ring: seq<Edge>)
    requires IsRecord(ring + HonestEdges(choices, HONEST_BASE), config, choices)
    requires Represents(g, ring + HonestEdges(choices, HONEST_BASE),
                        Ids(0, config.ringSize) + Ids(HONEST_BASE, config.honestAgents))
    requires Judges(d, g, DetectorThresholds(config), Ids(0, config.ringSize))
    ensures DetectedOn(d, config, choices)
  {
  }

  lemma AlarmsFit(d: Detection, g: Graph, config: CollusionConfig, choices: seq<seq<Party>>, ring: seq<Edge>)
    requires config.ringSize <= HONEST_BASE && HonestChoices(config, choices) && Within(ring, config.ringSize)
    requires Represents(g, ring + HonestEdges(choices, HONEST_BASE),
                        Ids(0, config.ringSize) + Ids(HONEST_BASE, config.honestAgents))
    requires Judges(d, g, DetectorThresholds(config), Ids(0, config.ringSize))
    ensures CrowdVerdict(d, choices, HONEST_BASE, DetectorThresholds(config))
  {
    CrowdIsSeparate(config, choices, ring);
    MixedIsCrowded(g, ring, choices, HONEST_BASE, config.ringSize);
    JudgedCrowd(d, g, choices, HONEST_BASE, Ids(0, config.ringSize), DetectorThresholds(config));
  }

  /** Run the detectors over what has been recorded. */
  method DetectAll(config: CollusionConfig, choices: seq<seq<Party>>, edges: seq<Edge>, ghost ring: seq<Edge>)
    returns (d: Detection)
    requires 1 <= config.ringSize <= HONEST_BASE && HonestChoices(config, choices)
    requires edges == ring + HonestEdges(choices, HONEST_BASE) && Within(ring, config.ringSize)
    requires if config.ratingsPerPair == 0 then ring == [] else RatedAll(ring, config.ringSize, config.ringSize)
    ensures DetectedOn(d, config, choices)
    ensures CrowdVerdict(d, choices, HONEST_BASE, DetectorThresholds(config))
    ensures config.ringSize >= 2 && config.ratingsPerPair >= 1
        ==> RingVerdict(d, config.ringSize, DetectorThresholds(config))
  {
    var size := config.ringSize;
    CrowdIsSeparate(config, choices, ring);
    if config.ratingsPerPair > 0 {
      MoreEdgesKeep(ring, edges, size, size);
    }
    ghost var g;
    d, g := Detect(edges, Ids(0, size) + Ids(HONEST_BASE, config.honestAgents), size, DetectorThresholds(config));
    RecordIs(config, choices, ring);
    DetectionFits(d, g, config, choices, ring);
    AlarmsFit(d, g, config, choices, ring);
  }

  /** What the first member scores and what the whole ring has paid. */
  method Reckon(sim: Simulator, size: nat, ratings: nat, ghost attests: nat) returns (score: int, cost: int)
    requires size >= 1
    requires attests == if sim.version.RequiresReceipts() then size * (size - 1) else 0
    requires Ring(sim.Value(), sim.version, size, ratings,
                  if sim.version.RequiresReceipts() then Made(size, size, 0) else Zeros(size),
                  Calls(size, ratings, size, 0, 0), size, attests, size * ((size - 1) * ratings))
    modifies sim
    ensures score == RingScore(sim.version, size, ratings) && cost == RingCost(sim.version, size, ratings)
  {
    RingEarns(sim.Value(), sim.version, sim.params, size, ratings, attests, size * ((size - 1) * ratings));
    assert Party(0) == Party(0 as nat);
    TouchKeepsRecords(sim.Value(), Party(0));
    SameTotals(sim.Value(), Ensure(sim.Value(), Party(0)), 0, size);
    CostAddsUp(sim.version, size, ratings);
    score := sim.ScoreOf(Party(0), 0);
    cost := SumSpent(sim.Value(), 0, size);
  }

  /** Everybody prepares, the ring rates itself, and the honest agents rate each other. */
  method RunRatings(sim: Simulator, config: CollusionConfig, choices: seq<seq<Party>>, ghost attests: nat)
    returns (edges: seq<Edge>, ghost ring: seq<Edge>)
    requires sim.Value() == EMPTY_WORLD
    requires 1 <= config.ringSize <= HONEST_BASE && HonestChoices(config, choices)
    requires attests == if sim.version.RequiresReceipts() then config.ringSize * (config.ringSize - 1) else 0
    modifies sim
    ensures var size, ratings := config.ringSize, config.ratingsPerPair;
      Ring(sim.Value(), sim.version, size, ratings,
           if sim.version.RequiresReceipts() then Made(size, size, 0) else Zeros(size),
           Calls(size, ratings, size, 0, 0), size, attests, size * ((size - 1) * ratings))
    ensures Within(ring, config.ringSize)
    ensures sim.version.RequiresReceipts() ==>
              && edges == ring + HonestEdges(choices, HONEST_BASE)
              && if config.ratingsPerPair == 0 then ring == [] else RatedAll(ring, config.ringSize, config.ringSize)
  {
    var size, ratings := config.ringSize, config.ratingsPerPair;
    ghost var made := if sim.version.RequiresReceipts() then Made(size, size, 0) else Zeros(size);
    if sim.version.RequiresReceipts() {
      PrepareRing(sim, size, ratings);
      PrepareHonest(sim, config, made, Zeros(size), size, attests);
    } else {
      FreshRing(sim.version, size, ratings);
    }
    var ringEdges := RateRing(sim, size, ratings, made, attests);
    ring := ringEdges;
    edges := RateHonest(sim, config, choices, ringEdges, made, Calls(size, ratings, size, 0, 0), attests,
                        size * ((size - 1) * ratings));
    assert choices[..|choices|] == choices;
  }

  /** A ring that scores has paid, so the price per point is never zero. */
  lemma NoFreePoints(v: Version, size: nat, ratings: nat)
    requires size >= 1
    ensures CostPerRingPoint(RingCost(v, size, ratings), size, RingScore(v, size, ratings)) <= 0.0
        ==> RingScore(v, size, ratings) == 0
  {
    if v.RequiresReceipts() && size >= 2 && ratings >= 1 {
      RingNeverCheaper(v, size, ratings);
    }
  }

  lemma CostAddsUp(v: Version, size: nat, ratings: nat)
    requires size >= 1
    ensures RingCost(v, size, ratings)
         == (if v.RequiresReceipts() then size * (size - 1) else 0) * ATTEST_COST
            + size * ((size - 1) * ratings) * RECEIPT_COST
  {
    assert size * ((size - 1) * ratings) == size * (size - 1) * ratings;
  }
}
