/** The inactivity decay curve shared by the reputation simulator and the log
    indexer: an integer slope in basis points with two rounding steps. */
module Decay {

  import opened Arithmetic

  const BPS_DENOMINATOR := 10_000

  function Net(count: int, disputes: int): (net: nat)
  {
    if count > disputes then count - disputes else 0
  }

  /** Basis points left after `elapsed` idle seconds. */
  function DecayBps(elapsed: int, graceSecs: int, horizonSecs: int): (bps: nat)
    ensures bps <= BPS_DENOMINATOR
  {
    if elapsed <= graceSecs then BPS_DENOMINATOR
    else
      var decayed := elapsed - graceSecs;
      if decayed >= horizonSecs then 0
      else
        QuotientBounds((horizonSecs - decayed) * BPS_DENOMINATOR, horizonSecs, BPS_DENOMINATOR);
        ((horizonSecs - decayed) * BPS_DENOMINATOR) / horizonSecs
  }

  /** The simulator's curve. Dividing is safe for every horizon, zero and
      negative included, because such a horizon is always already past. */
  function LinearDecayScore(count: int, disputes: int, lastActivity: int, now: int,
                            graceSecs: int, horizonSecs: int): (score: nat)
    ensures score <= Net(count, disputes)
  {
    var net := Net(count, disputes);
    if lastActivity > 0 && net > 0 then
      var bps := DecayBps(now - lastActivity, graceSecs, horizonSecs);
      QuotientBounds(net * bps, BPS_DENOMINATOR, net);
      (net * bps) / BPS_DENOMINATOR
    else net
  }

  /** The indexer's separately written copy of the curve. */
  function IndexedScore(count: int, disputes: int, lastActivity: int, now: int,
                        graceSecs: int, horizonSecs: int): (score: int)
  {
    var net := if count - disputes > 0 then count - disputes else 0;
    if net == 0 || lastActivity == 0 then net
    else
      var elapsed := now - lastActivity;
      if elapsed <= graceSecs then net
      else
        var decayed := elapsed - graceSecs;
        if decayed >= horizonSecs then 0
        else
          var bps := ((horizonSecs - decayed) * 10000) / horizonSecs;
          (net * bps) / 10000
  }

  // ---- the curve ----

  /** Waiting longer never raises the remaining basis points. */
  lemma DecayBpsAntitone(e1: int, e2: int, graceSecs: int, horizonSecs: int)
    requires e1 <= e2
    ensures DecayBps(e2, graceSecs, horizonSecs) <= DecayBps(e1, graceSecs, horizonSecs)
  {
    if e1 > graceSecs && e2 - graceSecs < horizonSecs {
      QuotientMonotone((horizonSecs - (e2 - graceSecs)) * BPS_DENOMINATOR,
                       (horizonSecs - (e1 - graceSecs)) * BPS_DENOMINATOR, horizonSecs);
    }
  }

  lemma ScoreNonIncreasingInNow(count: int, disputes: int, lastActivity: int, now1: int, now2: int,
                                graceSecs: int, horizonSecs: int)
    requires now1 <= now2
    ensures LinearDecayScore(count, disputes, lastActivity, now2, graceSecs, horizonSecs)
         <= LinearDecayScore(count, disputes, lastActivity, now1, graceSecs, horizonSecs)
  {
    var net := Net(count, disputes);
    if lastActivity > 0 && net > 0 {
      DecayBpsAntitone(now1 - lastActivity, now2 - lastActivity, graceSecs, horizonSecs);
      var b1 := DecayBps(now1 - lastActivity, graceSecs, horizonSecs);
      var b2 := DecayBps(now2 - lastActivity, graceSecs, horizonSecs);
      Scale(b2, b1, net);
      QuotientMonotone(net * b2, net * b1, BPS_DENOMINATOR);
    }
  }

  /** The score follows the net signal: more credit or fewer disputes never lower it. */
  lemma ScoreMonotoneInSignal(c1: int, d1: int, c2: int, d2: int, lastActivity: int, now: int,
                              graceSecs: int, horizonSecs: int)
    requires c1 <= c2 && d2 <= d1
    ensures LinearDecayScore(c1, d1, lastActivity, now, graceSecs, horizonSecs)
         <= LinearDecayScore(c2, d2, lastActivity, now, graceSecs, horizonSecs)
  {
    var n1, n2 := Net(c1, d1), Net(c2, d2);
    if lastActivity > 0 && n1 > 0 {
      var bps := DecayBps(now - lastActivity, graceSecs, horizonSecs);
      Scale(n1, n2, bps);
      QuotientMonotone(n1 * bps, n2 * bps, BPS_DENOMINATOR);
    }
  }

  /** Inside the decay window the two floors together cost less than
      net/10000 + 1 points against the exact line net * remaining / horizon:
          exact - net/10000 - 1  <  score  <=  exact,
      with every side multiplied by 10000 * horizon. */
  lemma ScoreNearExactLine(count: int, disputes: int, lastActivity: int, now: int,
                           graceSecs: int, horizonSecs: int)
    requires lastActivity > 0
    requires 0 < now - lastActivity - graceSecs < horizonSecs
    ensures
      var net := Net(count, disputes);
      var remaining := horizonSecs - (now - lastActivity - graceSecs);
      var score := LinearDecayScore(count, disputes, lastActivity, now, graceSecs, horizonSecs);
      && score * horizonSecs <= net * remaining
      && 10000 * (net * remaining) - net * horizonSecs - 10000 * horizonSecs < 10000 * (score * horizonSecs)
  {
    var n := Net(count, disputes);
    var h := horizonSecs;
    var r := h - (now - lastActivity - graceSecs);
    var b := DecayBps(now - lastActivity, graceSecs, h);
    var s := LinearDecayScore(count, disputes, lastActivity, now, graceSecs, h);
    if n > 0 {
      QuotientRemainder(r * BPS_DENOMINATOR, h);
      QuotientRemainder(n * b, BPS_DENOMINATOR);
      assert h * b <= 10000 * r < h * b + h;
      assert 10000 * s <= n * b < 10000 * s + 10000;
      TwoFloors(n, b, h, r, s);
    }
  }

  lemma TwoFloors(n: nat, b: nat, h: nat, r: nat, s: nat)
    requires n > 0 && h > 0
    requires h * b <= 10000 * r < h * b + h
    requires 10000 * s <= n * b < 10000 * s + 10000
    ensures s * h <= n * r
    ensures 10000 * (n * r) - n * h - 10000 * h < 10000 * (s * h)
  {
    FloorsAbove(n, b, h, r, s);
    FloorsBelow(n, b, h, r, s);
  }

  lemma FloorsAbove(n: nat, b: nat, h: nat, r: nat, s: nat)
    requires h * b <= 10000 * r && 10000 * s <= n * b
    ensures s * h <= n * r
  {
    var nb := n * b;
    assert n * (h * b) == h * nb;
    Scale(h * b, 10000 * r, n);
    Scale(10000 * s, nb, h);
    assert h * (10000 * s) == 10000 * (s * h);
  }

  lemma FloorsBelow(n: nat, b: nat, h: nat, r: nat, s: nat)
    requires n > 0 && 10000 * r < h * b + h && n * b < 10000 * s + 10000
    ensures 10000 * (n * r) - n * h - 10000 * h < 10000 * (s * h)
  {
    var nb := n * b;
    Scale(10000 * r + 1, h * b + h, n);
    assert n * (h * b + h) == h * nb + n * h;
    Scale(nb + 1, 10000 * s + 10000, h);
    assert h * (10000 * s + 10000) == 10000 * (s * h) + 10000 * h;
    assert h * (nb + 1) == h * nb + h;
  }

  /** The whole curve: the net signal with no activity time and within the grace period,
      nothing from the horizon on, and in between the net signal scaled by the remaining
      share in basis points, each of the two divisions rounded down. */
  lemma ScoreThroughoutLife(count: int, disputes: int, lastActivity: int, now: int, graceSecs: int, horizonSecs: int)
    ensures
      var net := if count > disputes then count - disputes else 0;
      var decayed := now - lastActivity - graceSecs;
      var score := LinearDecayScore(count, disputes, lastActivity, now, graceSecs, horizonSecs);
      && (lastActivity <= 0 || decayed <= 0 ==> score == net)
      && (lastActivity > 0 && decayed > 0 && decayed >= horizonSecs ==> score == 0)
      && (lastActivity > 0 && 0 < decayed < horizonSecs ==>
            exists bps: nat ::
              && bps * horizonSecs <= 10_000 * (horizonSecs - decayed) < bps * horizonSecs + horizonSecs
              && 10_000 * score <= net * bps < 10_000 * score + 10_000)
  {
    var net := Net(count, disputes);
    var decayed := now - lastActivity - graceSecs;
    if lastActivity > 0 && decayed <= 0 && net > 0 {
      assert (net * BPS_DENOMINATOR) / BPS_DENOMINATOR == net;
    }
    if lastActivity > 0 && 0 < decayed < horizonSecs {
      var bps := DecayBps(now - lastActivity, graceSecs, horizonSecs);
      var score := LinearDecayScore(count, disputes, lastActivity, now, graceSecs, horizonSecs);
      QuotientRemainder((horizonSecs - decayed) * BPS_DENOMINATOR, horizonSecs);
      QuotientRemainder(net * bps, BPS_DENOMINATOR);
      assert bps * horizonSecs <= 10_000 * (horizonSecs - decayed) < bps * horizonSecs + horizonSecs;
      assert 10_000 * score <= net * bps < 10_000 * score + 10_000;
    }
  }

  /** The two hand-written copies agree on every input the log or the simulator
      can produce, and differ only for a negative activity time whose score has
      really begun to decay. */
  lemma IndexerAgreesWithSimulator(count: int, disputes: int, lastActivity: int, now: int,
                                   graceSecs: int, horizonSecs: int)
    ensures IndexedScore(count, disputes, lastActivity, now, graceSecs, horizonSecs)
         == LinearDecayScore(count, disputes, lastActivity, now, graceSecs, horizonSecs)
       <==> lastActivity >= 0 || count <= disputes || now - lastActivity <= graceSecs
  {
    var net := Net(count, disputes);
    if lastActivity < 0 && net > 0 && now - lastActivity > graceSecs {
      var decayed := now - lastActivity - graceSecs;
      if decayed < horizonSecs {
        // One second past the grace already costs at least one basis point.
        QuotientBounds((horizonSecs - decayed) * BPS_DENOMINATOR, horizonSecs, BPS_DENOMINATOR);
        var bps := ((horizonSecs - decayed) * BPS_DENOMINATOR) / horizonSecs;
        Scale(bps, BPS_DENOMINATOR - 1, net);
        QuotientBounds(net * bps, BPS_DENOMINATOR, net);
      }
    } else if net > 0 && lastActivity != 0 && now - lastActivity <= graceSecs {
      assert (net * BPS_DENOMINATOR) / BPS_DENOMINATOR == net;
    }
  }

  /** The indexer's copy never rises with time either, whatever the stored activity time. */
  lemma IndexedNonIncreasingInNow(count: int, disputes: int, lastActivity: int, now1: int, now2: int,
                                  graceSecs: int, horizonSecs: int)
    requires now1 <= now2
    ensures IndexedScore(count, disputes, lastActivity, now2, graceSecs, horizonSecs)
         <= IndexedScore(count, disputes, lastActivity, now1, graceSecs, horizonSecs)
  {
    var net := Net(count, disputes);
    if net != 0 && lastActivity != 0 {
      IndexedIsQuotient(count, disputes, lastActivity, now1, graceSecs, horizonSecs);
      IndexedIsQuotient(count, disputes, lastActivity, now2, graceSecs, horizonSecs);
      DecayBpsAntitone(now1 - lastActivity, now2 - lastActivity, graceSecs, horizonSecs);
      var b1 := DecayBps(now1 - lastActivity, graceSecs, horizonSecs);
      var b2 := DecayBps(now2 - lastActivity, graceSecs, horizonSecs);
      Scale(b2, b1, net);
      QuotientMonotone(net * b2, net * b1, BPS_DENOMINATOR);
    }
  }

  lemma IndexedIsQuotient(count: int, disputes: int, lastActivity: int, now: int, graceSecs: int, horizonSecs: int)
    requires count > disputes && lastActivity != 0
    ensures IndexedScore(count, disputes, lastActivity, now, graceSecs, horizonSecs)
         == (Net(count, disputes) * DecayBps(now - lastActivity, graceSecs, horizonSecs)) / BPS_DENOMINATOR
  {
    var net := Net(count, disputes);
    if now - lastActivity <= graceSecs {
      assert (net * BPS_DENOMINATOR) / BPS_DENOMINATOR == net;
    }
  }
}
