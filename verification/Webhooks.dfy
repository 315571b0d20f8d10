/** The webhook dispatcher run on its own: one poll as the loop it is, shown to
    be a run of the outbox machine, and what repeated polls achieve. */
module Webhooks {

  import opened Arithmetic
  import opened Alerts
  import opened Outbox

  datatype WebhookConfig = WebhookConfig(pollMs: nat, maxPerPoll: int)

  const THIS_POLL: nat := 0

  /** Alerts of `batch` delivered before the first refusal. */
  function Accepted(answers: nat -> bool, n: nat): (d: nat)
    ensures d <= n && (d < n ==> !answers(d)) && forall i: nat :: i < d ==> answers(i)
    decreases n
  {
    if n == 0 then 0
    else
      var d := Accepted(answers, n - 1);
      if d == n - 1 && answers(n - 1) then n else d
  }

  lemma {:induction false} AcceptedIs(answers: nat -> bool, n: nat, d: nat)
    requires d <= n && (d < n ==> !answers(d)) && forall i: nat :: i < d ==> answers(i)
    ensures Accepted(answers, n) == d
  {
  }

  lemma RunTwoMore(s: State, steps: seq<Step>, a: Step, b: Step)
    ensures Run(s, steps + [a, b]) == Apply(Apply(Run(s, steps), a), b)
  {
    assert (steps + [a, b])[..|steps| + 1] == steps + [a];
    assert (steps + [a])[..|steps|] == steps;
  }

  lemma RunOneMore(s: State, steps: seq<Step>, a: Step)
    ensures Run(s, steps + [a]) == Apply(Run(s, steps), a)
  {
    assert (steps + [a])[..|steps|] == steps;
  }

  /** The only poll in flight, still holding `rest`; none once it holds nothing. */
  function InFlight(cursor: nat, rest: seq<Alert>): map<nat, Poll>
  {
    if rest == [] then map[] else map[THIS_POLL := Poll(cursor, rest, false)]
  }

  /** An acknowledgement followed by its cursor write. */
  lemma OneDelivery(s: State, rest: seq<Alert>)
    requires rest != [] && s.polls == InFlight(s.cursor, rest)
    ensures Apply(Apply(s, Accept(THIS_POLL)), Commit(THIS_POLL))
         == s.(cursor := rest[0].id, streak := 0, nextAttempt := 0, polls := InFlight(rest[0].id, rest[1..]),
               log := s.log + [Acked(rest[0].id)] + [Written(rest[0].id)])
  {
    var a := Apply(s, Accept(THIS_POLL));
    assert a.polls == map[THIS_POLL := Poll(s.cursor, rest, true)];
    var c := Apply(a, Commit(THIS_POLL));
    assert c.polls == InFlight(rest[0].id, rest[1..]);
  }

  /** A refusal ends the poll. */
  lemma OneRefusal(s: State, rest: seq<Alert>, now: int, pollMs: nat)
    requires rest != [] && s.polls == InFlight(s.cursor, rest)
    ensures Apply(s, Refuse(THIS_POLL, now, pollMs))
         == s.(streak := s.streak + 1, nextAttempt := now + Backoff(pollMs, s.streak + 1), polls := map[])
  {
  }

  /** The poll interval, doubled `n` times. */
  function Doubled(pollMs: nat, n: nat): nat
  {
    if n == 0 then pollMs else 2 * Doubled(pollMs, n - 1)
  }

  /** How long a subscriber that has refused `n` times in a row is left alone. */
  function Wait(pollMs: nat, n: nat): nat
  {
    Min(Doubled(pollMs, n), 300_000)
  }

  lemma {:induction false} PowerDoubles(pollMs: nat, n: nat)
    ensures pollMs * Pow2(n) == Doubled(pollMs, n)
  {
    if n > 0 {
      PowerDoubles(pollMs, n - 1);
      assert pollMs * (2 * Pow2(n - 1)) == 2 * (pollMs * Pow2(n - 1));
    }
  }

  /** The wait begins at the poll interval, doubles with every failure, and stops at five minutes. */
  lemma BackoffDoubles(pollMs: nat, n: nat)
    ensures Backoff(pollMs, 0) == Min(pollMs, 300_000)
    ensures Backoff(pollMs, n + 1) == Min(2 * Backoff(pollMs, n), 300_000)
    ensures Backoff(pollMs, n) == Wait(pollMs, n)
  {
    PowerDoubles(pollMs, 0);
    PowerDoubles(pollMs, n);
    PowerDoubles(pollMs, n + 1);
  }

  /** Waiting times never shrink as failures pile up, and never pass the cap. */
  lemma {:induction false} BackoffMonotone(pollMs: nat, m: nat, n: nat)
    requires m <= n
    ensures Backoff(pollMs, m) <= Backoff(pollMs, n) <= 300_000
  {
    if m < n {
      BackoffMonotone(pollMs, m, n - 1);
      BackoffDoubles(pollMs, n - 1);
    } else {
      BackoffDoubles(pollMs, n);
    }
  }

  class Dispatcher {
    const alerts: AlertTable
    var cursor: nat
    var streak: nat
    var nextAttempt: int
    var deliveredTotal: nat
    var failedTotal: nat
    ghost var log: seq<Event>
    ghost var retracted: set<nat>

    /** The machine state this object is in between polls. */
    ghost function Value(): State
      reads this, alerts
    {
      State(alerts.Value(), cursor, streak, nextAttempt, map[], log, retracted)
    }

    constructor (alerts: AlertTable)
      requires alerts.Value() == Table([], 0)
      ensures this.alerts == alerts && Value() == START
    {
      this.alerts := alerts;
      cursor, streak, nextAttempt, deliveredTotal, failedTotal := 0, 0, 0, 0, 0;
      log, retracted := [], {};
    }

    /** Deliver every alert above the cursor, oldest first; the first failure
        ends the poll and starts a backoff. `answers(i)` is the subscriber's
        answer to the `i`-th delivery, `failNow` the clock when one fails. */
    method PollWebhooksOnce(config: WebhookConfig, now: int, failNow: int, answers: nat -> bool)
      returns (delivered: nat, failed: nat, ghost steps: seq<Step>)
      requires Valid(alerts.Value())
      modifies this
      ensures Value() == Run(old(Value()), steps)
      ensures
        var batch :=
          if now < old(nextAttempt) then [] else Batch(alerts.rows, old(cursor), SafeLimit(config.maxPerPoll));
        && delivered == Accepted(answers, |batch|)
        && failed == (if delivered < |batch| then 1 else 0)
        && cursor == (if delivered == 0 then old(cursor) else batch[delivered - 1].id)
        && streak == (if batch == [] then old(streak) else (if delivered == 0 then old(streak) else 0) + failed)
        && nextAttempt == (if batch == [] then old(nextAttempt)
                           else if failed == 1 then failNow + Wait(config.pollMs, streak) else 0)
      ensures deliveredTotal == old(deliveredTotal) + delivered && failedTotal == old(failedTotal) + failed
    {
      delivered, failed, steps := 0, 0, [];
      if now < nextAttempt {
        return;
      }
      var batch := alerts.ListAlertsAfter(cursor, config.maxPerPoll);
      if batch == [] {
        return;
      }
      ghost var start := Start(THIS_POLL, now, config.maxPerPoll);
      RunOneMore(Value(), [], start);
      delivered, failed, steps := DeliverBatch(config, failNow, answers, batch, Value(), [] + [start]);
      AcceptedIs(answers, |batch|, delivered);
    }

    /** The delivery loop of one poll. */
    method DeliverBatch(config: WebhookConfig, failNow: int, answers: nat -> bool, batch: seq<Alert>,
                        ghost before: State, ghost steps: seq<Step>)
      returns (delivered: nat, failed: nat, ghost steps': seq<Step>)
      requires batch != [] && Run(before, steps) == Value().(polls := InFlight(cursor, batch))
      modifies this
      ensures Run(before, steps') == Value()
      ensures delivered <= |batch| && forall i: nat :: i < delivered ==> answers(i)
      ensures delivered < |batch| ==> !answers(delivered)
      ensures failed == if delivered < |batch| then 1 else 0
      ensures cursor == if delivered == 0 then old(cursor) else batch[delivered - 1].id
      ensures streak == (if delivered == 0 then old(streak) else 0) + failed
      ensures nextAttempt == if failed == 1 then failNow + Wait(config.pollMs, streak) else 0
      ensures deliveredTotal == old(deliveredTotal) + delivered && failedTotal == old(failedTotal) + failed
    {
      delivered, failed, steps' := 0, 0, steps;
      assert batch[0..] == batch;
      while delivered < |batch|
        invariant 0 <= delivered <= |batch|
        invariant forall i: nat :: i < delivered ==> answers(i)
        invariant cursor == if delivered == 0 then old(cursor) else batch[delivered - 1].id
        invariant streak == if delivered == 0 then old(streak) else 0
        invariant delivered > 0 ==> nextAttempt == 0
        invariant deliveredTotal == old(deliveredTotal) + delivered && failedTotal == old(failedTotal)
        invariant Run(before, steps') == Value().(polls := InFlight(cursor, batch[delivered..]))
      {
        if !answers(delivered) {
          steps' := Refused(config, failNow, batch[delivered..], before, steps');
          failed := failed + 1;
          return;
        }
        assert batch[delivered..][1..] == batch[delivered + 1..];
        steps' := Delivered(batch[delivered..], before, steps');
        delivered := delivered + 1;
      }
    }

    /** The subscriber took `rest[0]`: write the cursor and clear the failure state. */
    method Delivered(rest: seq<Alert>, ghost before: State, ghost steps: seq<Step>) returns (ghost steps': seq<Step>)
      requires rest != [] && Run(before, steps) == Value().(polls := InFlight(cursor, rest))
      modifies this
      ensures cursor == rest[0].id && streak == 0 && nextAttempt == 0
      ensures deliveredTotal == old(deliveredTotal) + 1 && failedTotal == old(failedTotal)
      ensures Run(before, steps') == Value().(polls := InFlight(cursor, rest[1..]))
    {
      OneDelivery(Run(before, steps), rest);
      RunTwoMore(before, steps, Accept(THIS_POLL), Commit(THIS_POLL));
      steps' := steps + [Accept(THIS_POLL), Commit(THIS_POLL)];
      cursor := rest[0].id;
      deliveredTotal := deliveredTotal + 1;
      streak := 0;
      nextAttempt := 0;
      log := log + [Acked(cursor)] + [Written(cursor)];
    }

    /** The subscriber refused: count the failure and back off. */
    method Refused(config: WebhookConfig, failNow: int, rest: seq<Alert>, ghost before: State, ghost steps: seq<Step>)
      returns (ghost steps': seq<Step>)
      requires rest != [] && Run(before, steps) == Value().(polls := InFlight(cursor, rest))
      modifies this
      ensures cursor == old(cursor) && streak == old(streak) + 1
      ensures nextAttempt == failNow + Wait(config.pollMs, streak)
      ensures deliveredTotal == old(deliveredTotal) && failedTotal == old(failedTotal) + 1
      ensures Run(before, steps') == Value()
    {
      OneRefusal(Run(before, steps), rest, failNow, config.pollMs);
      RunOneMore(before, steps, Refuse(THIS_POLL, failNow, config.pollMs));
      steps' := steps + [Refuse(THIS_POLL, failNow, config.pollMs)];
      streak := streak + 1;
      failedTotal := failedTotal + 1;
      var backoff := Backoff(config.pollMs, streak);
      BackoffDoubles(config.pollMs, streak);
      nextAttempt := failNow + backoff;
    }

    /** A willing subscriber takes one full page off the backlog. */
    method PollAccepting(config: WebhookConfig, now: int) returns (delivered: nat)
      requires Valid(alerts.Value()) && now >= nextAttempt
      modifies this
      ensures var pending := CountAfter(alerts.rows, old(cursor));
        && delivered == Min(pending, Max(1, Min(config.maxPerPoll, 500)))
        && CountAfter(alerts.rows, cursor) == pending - delivered
      ensures delivered > 0 ==> nextAttempt == 0
      ensures nextAttempt <= old(nextAttempt) || nextAttempt == 0
    {
      var failed;
      ghost var steps;
      delivered, failed, steps := PollWebhooksOnce(config, now, now, (i: nat) => true);
      BatchSize(alerts.rows, old(cursor), SafeLimit(config.maxPerPoll));
      if delivered > 0 {
        CountAfterBatch(alerts.rows, old(cursor), SafeLimit(config.maxPerPoll));
      }
    }

    /** With a willing subscriber the backlog is gone after ceil(pending / page) polls. */
    method DrainBacklog(config: WebhookConfig, now: int) returns (polls: nat)
      requires Valid(alerts.Value()) && now >= nextAttempt && now >= 0
      modifies this
      ensures CountAfter(alerts.rows, cursor) == 0
      ensures polls == CeilDiv(CountAfter(alerts.rows, old(cursor)), Max(1, Min(config.maxPerPoll, 500)))
    {
      var page := SafeLimit(config.maxPerPoll);
      ghost var total := CountAfter(alerts.rows, cursor);
      polls := 0;
      var pending := alerts.CountAlertsAfter(cursor);
      NoPages(page);
      while pending > 0
        invariant pending == CountAfter(alerts.rows, cursor)
        invariant now >= nextAttempt
        invariant polls + CeilDiv(pending, page) == CeilDiv(total, page)
        decreases pending
      {
        var delivered := PollAccepting(config, now);
        OnePageLess(pending, page);
        pending := alerts.CountAlertsAfter(cursor);
        polls := polls + 1;
      }
    }
  }

  lemma NoPages(page: nat)
    requires page > 0
    ensures CeilDiv(0, page) == 0
  {
    QuotientBounds(page - 1, page, 1);
  }

  lemma OnePageLess(pending: nat, page: nat)
    requires pending > 0 && page > 0
    ensures CeilDiv(if pending < page then 0 else pending - page, page) == CeilDiv(pending, page) - 1
  {
    NoPages(page);
    QuotientShift(pending - 1, page);
    if pending < page {
      SmallQuotient(pending - 1, page);
    }
  }

  // ---- a subscriber that keeps refusing ----

  /** Polls whose first delivery is refused; `times[i]` is when round `i` runs. */
  function FailingRounds(times: seq<int>, maxPerPoll: int, pollMs: nat): seq<Step>
  {
    if times == [] then []
    else
      var now := times[|times| - 1];
      FailingRounds(times[..|times| - 1], maxPerPoll, pollMs)
      + [Start(THIS_POLL, now, maxPerPoll), Refuse(THIS_POLL, now, pollMs)]
  }

  /** When round `i` may run: past the backoff the round before it set. */
  function DueAt(first: int, streak: nat, times: seq<int>, pollMs: nat, i: nat): int
    requires i <= |times|
  {
    if i == 0 then first else times[i - 1] + Wait(pollMs, streak + i)
  }

  predicate WaitsOut(first: int, streak: nat, times: seq<int>, pollMs: nat)
  {
    forall i :: 0 <= i < |times| ==> times[i] >= DueAt(first, streak, times, pollMs, i)
  }

  /** The state after those rounds: only the streak and the clock have moved. */
  function AfterFailures(s: State, times: seq<int>, pollMs: nat): State
  {
    if times == [] then s
    else s.(streak := s.streak + |times|, nextAttempt := times[|times| - 1] + Wait(pollMs, s.streak + |times|))
  }

  lemma WaitsOutPrefix(first: int, streak: nat, times: seq<int>, pollMs: nat)
    requires times != [] && WaitsOut(first, streak, times, pollMs)
    ensures WaitsOut(first, streak, times[..|times| - 1], pollMs)
  {
    var earlier := times[..|times| - 1];
    forall i | 0 <= i < |earlier|
      ensures earlier[i] >= DueAt(first, streak, earlier, pollMs, i)
    {
      assert times[i] >= DueAt(first, streak, times, pollMs, i);
    }
  }

  /** n refused polls in a row: the wait after the last is the poll interval doubled as
      often as polls have been refused, up to five minutes, and the backlog and the
      cursor are untouched. */
  lemma {:induction false} FailureStreak(s: State, times: seq<int>, maxPerPoll: int, pollMs: nat)
    requires s.polls == map[] && Batch(s.table.rows, s.cursor, SafeLimit(maxPerPoll)) != []
    requires WaitsOut(s.nextAttempt, s.streak, times, pollMs)
    ensures Run(s, FailingRounds(times, maxPerPoll, pollMs)) == AfterFailures(s, times, pollMs)
  {
    if times != [] {
      var n := |times| - 1;
      var earlier := FailingRounds(times[..n], maxPerPoll, pollMs);
      WaitsOutPrefix(s.nextAttempt, s.streak, times, pollMs);
      FailureStreak(s, times[..n], maxPerPoll, pollMs);
      RunTwoMore(s, earlier, Start(THIS_POLL, times[n], maxPerPoll), Refuse(THIS_POLL, times[n], pollMs));
      OneMoreFailure(s, times, maxPerPoll, pollMs);
    }
  }

  /** After the n-th refusal in a row no poll is due before the interval doubled n times, or five minutes, is over. */
  lemma NthWait(s: State, times: seq<int>, maxPerPoll: int, pollMs: nat)
    requires s.polls == map[] && Batch(s.table.rows, s.cursor, SafeLimit(maxPerPoll)) != []
    requires s.streak == 0 && times != [] && WaitsOut(s.nextAttempt, 0, times, pollMs)
    ensures var s' := Run(s, FailingRounds(times, maxPerPoll, pollMs));
      && s'.nextAttempt == times[|times| - 1] + Min(Doubled(pollMs, |times|), 300_000)
      && s'.cursor == s.cursor && s'.table == s.table && s'.streak == |times|
  {
    FailureStreak(s, times, maxPerPoll, pollMs);
  }

  lemma OneMoreFailure(s: State, times: seq<int>, maxPerPoll: int, pollMs: nat)
    requires s.polls == map[] && Batch(s.table.rows, s.cursor, SafeLimit(maxPerPoll)) != []
    requires times != [] && WaitsOut(s.nextAttempt, s.streak, times, pollMs)
    ensures var n := |times| - 1;
      Apply(Apply(AfterFailures(s, times[..n], pollMs), Start(THIS_POLL, times[n], maxPerPoll)),
            Refuse(THIS_POLL, times[n], pollMs)) == AfterFailures(s, times, pollMs)
  {
    var n := |times| - 1;
    var mid := AfterFailures(s, times[..n], pollMs);
    assert times[n] >= DueAt(s.nextAttempt, s.streak, times, pollMs, n);
    DueNext(s, times, pollMs);
    OneFailingRound(mid, times[n], maxPerPoll, pollMs);
    FailuresAddUp(s, times, pollMs);
  }

  lemma FailuresAddUp(s: State, times: seq<int>, pollMs: nat)
    requires times != []
    ensures var n := |times| - 1;
      var mid := AfterFailures(s, times[..n], pollMs);
      && mid == s.(streak := s.streak + n, nextAttempt := mid.nextAttempt)
      && AfterFailures(s, times, pollMs)
           == mid.(streak := mid.streak + 1, nextAttempt := times[n] + Wait(pollMs, mid.streak + 1))
  {
  }

  /** Each refused round sets the time at which the next is due. */
  lemma DueNext(s: State, times: seq<int>, pollMs: nat)
    requires times != []
    ensures var n := |times| - 1;
      AfterFailures(s, times[..n], pollMs).nextAttempt == DueAt(s.nextAttempt, s.streak, times, pollMs, n)
  {
  }

  lemma OneFailingRound(s: State, now: int, maxPerPoll: int, pollMs: nat)
    requires s.polls == map[] && now >= s.nextAttempt
    requires Batch(s.table.rows, s.cursor, SafeLimit(maxPerPoll)) != []
    ensures Apply(Apply(s, Start(THIS_POLL, now, maxPerPoll)), Refuse(THIS_POLL, now, pollMs))
         == s.(streak := s.streak + 1, nextAttempt := now + Wait(pollMs, s.streak + 1))
  {
    BackoffDoubles(pollMs, s.streak + 1);
    var batch := Batch(s.table.rows, s.cursor, SafeLimit(maxPerPoll));
    var started := Apply(s, Start(THIS_POLL, now, maxPerPoll));
    assert started == s.(polls := InFlight(s.cursor, batch));
    OneRefusal(started, batch, now, pollMs);
  }

  // ---- the silence after a refusal ----

  /** Steps in which no poll hears from the subscriber. */
  predicate NobodyAnswers(steps: seq<Step>)
  {
    forall i :: 0 <= i < |steps| ==> !steps[i].Commit? && !steps[i].Refuse?
  }

  lemma {:induction false} DueKept(s: State, between: seq<Step>)
    requires NobodyAnswers(between)
    ensures Run(s, between).nextAttempt == s.nextAttempt && Run(s, between).streak == s.streak
  {
    if between != [] {
      DueKept(s, between[..|between| - 1]);
    }
  }

  /** Once a delivery has been refused, and until the subscriber is heard again, a poll
      sets out if and only if it comes after the wait and finds an alert above the
      cursor; the wait is the poll interval doubled by this refusal and each before it in a row. */
  lemma RefusalSilences(s: State, poll: nat, now: int, pollMs: nat, between: seq<Step>, next: nat, at: int,
                        maxPerPoll: int)
    requires poll in s.polls && NobodyAnswers(between)
    ensures
      var s' := Run(Apply(s, Refuse(poll, now, pollMs)), between);
      next !in s'.polls ==>
        (next in Apply(s', Start(next, at, maxPerPoll)).polls
         <==> at >= now + Wait(pollMs, s.streak + 1) && exists r :: r in s'.table.rows && r.id > s'.cursor)
  {
    BackoffDoubles(pollMs, s.streak + 1);
    DueKept(Apply(s, Refuse(poll, now, pollMs)), between);
    var s' := Run(Apply(s, Refuse(poll, now, pollMs)), between);
    NothingToSend(s'.table.rows, s'.cursor, SafeLimit(maxPerPoll));
  }

  lemma {:induction false} NothingToSend(rows: seq<Alert>, afterId: nat, n: nat)
    requires n > 0
    ensures Batch(rows, afterId, n) != [] <==> exists r :: r in rows && r.id > afterId
  {
    if rows != [] {
      NothingToSend(rows[1..], afterId, n);
    }
  }

  /** A delivery ends the silence: the next poll sets out at any time, if there is anything
      above the cursor, and failures are counted afresh. */
  lemma DeliveryEndsSilence(s: State, poll: nat, between: seq<Step>, next: nat, at: int, maxPerPoll: int)
    requires poll in s.polls && s.polls[poll].accepted && s.polls[poll].rest != [] && NobodyAnswers(between)
    ensures
      var s' := Run(Apply(s, Commit(poll)), between);
      && s'.streak == 0
      && (next !in s'.polls && at >= 0 ==>
            (next in Apply(s', Start(next, at, maxPerPoll)).polls
             <==> exists r :: r in s'.table.rows && r.id > s'.cursor))
  {
    DueKept(Apply(s, Commit(poll)), between);
    var s' := Run(Apply(s, Commit(poll)), between);
    NothingToSend(s'.table.rows, s'.cursor, SafeLimit(maxPerPoll));
  }
}
