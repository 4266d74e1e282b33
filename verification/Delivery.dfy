/** The dispatcher that works the outbox off: one leased row at a time, bounded
    retries, and pauses between requests.  Its clock is in nanoseconds. */
module Delivery {
  import opened Common
  import opened Outbox
  import Database

  const SECOND := 1000000000
  const MAX_DELAY := 300 * SECOND

  // ---------------------------------------------------------------- backing off

  function Clamp(x: real, low: real, high: real): real {
    if x < low then low else if x > high then high else x
  }

  function Doubled(attempt: int): int {
    match if attempt < 1 then 1 else if attempt > 7 then 7 else attempt
    case 1 => 1 case 2 => 2 case 3 => 4 case 4 => 8 case 5 => 16 case 6 => 32 case _ => 64
  }

  function Base(attempt: int): int {
    var delay := 5 * SECOND * Doubled(attempt);
    if delay > MAX_DELAY then MAX_DELAY else delay
  }

  function RetryDelay(attempt: int, jitter: real): int {
    var delay := (Base(attempt) as real * (0.8 + 0.4 * Clamp(jitter, 0.0, 1.0))).Floor;
    if delay > MAX_DELAY then MAX_DELAY else delay
  }

  lemma BaseIsRound(attempt: int, later: int)
    requires attempt <= later
    ensures 5 * SECOND <= Base(attempt) <= Base(later) <= MAX_DELAY
    ensures Base(attempt) == 5 * (Base(attempt) / 5)
  {
  }

  /** Every delay lies between four seconds and five minutes, and within a
      fifth of the undisturbed one. */
  lemma RetryDelayBounds(attempt: int, jitter: real)
    ensures 4 * SECOND <= RetryDelay(attempt, jitter) <= MAX_DELAY
    ensures 4 * Base(attempt) <= 5 * RetryDelay(attempt, jitter) <= 6 * Base(attempt)
  {
    var f := 0.8 + 0.4 * Clamp(jitter, 0.0, 1.0);
    assert 0.8 <= f <= 1.2;
    BaseIsRound(attempt, attempt);
    hide Base, Clamp;
    Scaled(Base(attempt), Base(attempt) / 5, f);
  }

  /** A later attempt never waits less, given the same jitter. */
  lemma RetryDelayGrows(attempt: int, later: int, jitter: real)
    requires attempt <= later
    ensures RetryDelay(attempt, jitter) <= RetryDelay(later, jitter)
  {
    BaseIsRound(attempt, later);
    Monotone(Base(attempt) as real, Base(later) as real, 0.8 + 0.4 * Clamp(jitter, 0.0, 1.0));
    hide Base;
  }

  lemma Scaled(base: int, unit: int, f: real)
    requires base == 5 * unit && unit > 0 && 0.8 <= f <= 1.2
    ensures 4 * unit <= (base as real * f).Floor <= 6 * unit
  {
    var x := base as real;
    Monotone(0.8, f, x);
    Monotone(f, 1.2, x);
    Product(base, unit, f);
  }

  lemma Product(base: int, unit: int, f: real)
    requires base == 5 * unit
    ensures base as real * 0.8 == (4 * unit) as real && base as real * 1.2 == (6 * unit) as real
  {
    assert base as real == 5.0 * unit as real;
  }

  lemma Monotone(a: real, b: real, x: real)
    requires a <= b && x >= 0.0
    ensures a * x <= b * x
  {
    assert (b - a) * x >= 0.0;
  }

  // ---------------------------------------------------------------- one attempt

  datatype Config = Config(enabled: bool, allowlist: set<Jid>, max: int, batch: int, minInterval: int, timeout: int,
      retentionMs: int)

  datatype Answer = Answer(status: Status, reason: Reason, rateLimited: bool, retryAfter: int)

  datatype Outcome = Outcome(status: Status, reason: Reason, next: int)

  predicate Allowed(c: Config, chat: Jid) {
    c.enabled && chat in c.allowlist
  }

  /** What is recorded after an attempt: the row is accepted only if the
      receiver said so, and left pending only if it can still be delivered. */
  predicate Justified(c: Config, n: Notice, answer: Option<Answer>, o: Outcome) {
    && o.status != Leased
    && (answer.Some? ==> Allowed(c, n.key.chat))
    && (answer.None? ==> o.status == Dead && o.reason == if Allowed(c, n.key.chat) then Expired else PolicyRemoved)
    && (answer.Some? && answer.value.status != Pending ==>
        o.status == answer.value.status && o.reason == answer.value.reason)
    && (answer.Some? && answer.value.status == Pending ==>
          && (o.status == Pending <==> n.attempts < c.max && o.next < n.expires * 1000)
          && (o.status == Pending ==> o.reason == answer.value.reason)
          && (o.status != Pending ==>
              o.status == Dead && o.reason == if n.attempts >= c.max then AttemptsExhausted else Expired))
  }

  /** A row the worker leaves pending can be claimed again before it expires. */
  lemma PendingCanBeClaimed(c: Config, n: Notice, answer: Option<Answer>, o: Outcome, finished: int)
    requires Justified(c, n, answer, o) && o.status == Pending
    ensures var row := Settle(n, o.status, o.reason, o.next / NS_PER_US, finished);
            row.next < row.expires && forall now | row.next <= now < row.expires ::
                Claimable(row, now, c.allowlist, c.max)
  {
  }

  // ---------------------------------------------------------------- spacing

  /** One request: when it began and ended, which attempt it was, the jitter
      drawn if it is to be retried, and what was answered. */
  datatype Sent = Sent(start: int, end: int, attempts: int, jitter: real, answer: Answer)

  predicate Limited(a: Answer) {
    a.status == Pending && a.rateLimited
  }

  /** How long a row waits that is to be retried. */
  function Backoff(attempts: int, jitter: real, retryAfter: int): int {
    var delay := RetryDelay(attempts, jitter);
    if retryAfter > delay then retryAfter else delay
  }

  /** Before when no request may follow. */
  function Hold(c: Config, s: Sent): int {
    if Limited(s.answer) then s.end + Backoff(s.attempts, s.jitter, s.answer.retryAfter) else s.end + c.minInterval
  }

  /** Each request begins when the one before it allows, and not earlier. */
  ghost predicate Paced(c: Config, sent: seq<Sent>) {
    && (forall i | 0 <= i < |sent| - 1 :: Hold(c, sent[i]) <= sent[i + 1].start)
    && (forall i | 0 <= i < |sent| :: sent[i].start <= sent[i].end)
  }

  /** What the configured interval promises: at least so long from the end of
      each request to the beginning of the next. */
  ghost predicate Spaced(c: Config, sent: seq<Sent>) {
    forall i | 0 <= i < |sent| - 1 :: sent[i].end + c.minInterval <= sent[i + 1].start
  }

  const MINUTE := 60 * SECOND
  const GROUP := Jid(GroupChat, 1)
  const SLOW := Config(true, {GROUP}, 10, 20, MINUTE, 5 * SECOND, 604800000)
  const REFUSED := Answer(Pending, Reported(429), true, 0)
  const FIRST := Sent(0, 0, 1, 0.0, REFUSED)
  const SECOND_REQUEST := Sent(4 * SECOND, 4 * SECOND, 1, 0.0, REFUSED)

  lemma FirstRetryDelay()
    ensures RetryDelay(1, 0.0) == 4 * SECOND
  {
    assert Base(1) == 5 * SECOND;
    assert (5 * SECOND) as real * 0.8 == (4 * SECOND) as real;
  }

  /** With an interval of a minute, a first attempt that is rate limited without
      a Retry-After header may be followed by a request four seconds later. */
  lemma LimitedRequestIsFollowedSooner()
    ensures Allowed(SLOW, GROUP) && Paced(SLOW, [FIRST, SECOND_REQUEST]) && !Spaced(SLOW, [FIRST, SECOND_REQUEST])
    ensures Hold(SLOW, FIRST) == SECOND_REQUEST.start == 4 * SECOND < FIRST.start + SLOW.minInterval
  {
    FirstRetryDelay();
    hide RetryDelay;
    var sent := [FIRST, SECOND_REQUEST];
    assert sent[0].end + SLOW.minInterval > sent[0 + 1].start;
  }

  /** One request keeps the configured interval exactly when it is not rate
      limited, or its back-off is long enough. */
  lemma HoldsTheInterval(c: Config, s: Sent)
    ensures Hold(c, s) >= s.end + c.minInterval <==>
            !Limited(s.answer) || RetryDelay(s.attempts, s.jitter) >= c.minInterval
                || s.answer.retryAfter >= c.minInterval
    ensures Hold(c, s) >= s.end + (if c.minInterval < 4 * SECOND then c.minInterval else 4 * SECOND)
  {
    RetryDelayBounds(s.attempts, s.jitter);
    hide RetryDelay, Base;
  }

  /** The configured interval is kept whatever is answered, at every attempt and
      jitter, exactly when it is at most four seconds. */
  lemma IntervalIsKeptExactly(c: Config)
    ensures (forall s: Sent :: Hold(c, s) >= s.end + c.minInterval) <==> c.minInterval <= 4 * SECOND
  {
    forall s: Sent | c.minInterval <= 4 * SECOND ensures Hold(c, s) >= s.end + c.minInterval {
      HoldsTheInterval(c, s);
    }
    FirstRetryDelay();
    hide RetryDelay;
    var s := Sent(0, 0, 1, 0.0, REFUSED);
    assert Hold(c, s) == 4 * SECOND;
  }

  /** So it is with whole runs: every run a worker may make is spaced by the
      configured interval exactly when that is at most four seconds. */
  lemma RunsKeepIntervalExactly(c: Config)
    ensures (forall sent: seq<Sent> | Paced(c, sent) :: Spaced(c, sent)) <==> c.minInterval <= 4 * SECOND
  {
    if c.minInterval <= 4 * SECOND {
      forall sent: seq<Sent> | Paced(c, sent) ensures Spaced(c, sent) {
        forall i | 0 <= i < |sent| - 1 ensures sent[i].end + c.minInterval <= sent[i + 1].start {
          HoldsTheInterval(c, sent[i]);
          hide Hold;
        }
      }
    } else {
      FirstRetryDelay();
      hide RetryDelay;
      var sent := [FIRST, SECOND_REQUEST];
      assert Hold(c, sent[0]) == 4 * SECOND;
      assert Paced(c, sent) && sent[0].end + c.minInterval > sent[0 + 1].start;
    }
  }

  class Worker {
    const cfg: Config
    const store: Database.Store
    var clock: int
    var nextSend: int
    var nextMaintenance: int
    ghost var sent: seq<Sent>

    constructor (cfg: Config, store: Database.Store, clock: int)
      ensures Valid() && this.cfg == cfg && this.store == store && sent == []
    {
      this.cfg, this.store, this.clock := cfg, store, clock;
      nextSend, nextMaintenance, sent := clock, clock, [];
    }

    /** The requests are paced, and the last one says when the next may be. */
    ghost predicate Valid()
      reads this`sent, this`nextSend
    {
      Paced(cfg, sent) && (|sent| > 0 ==> nextSend == Hold(cfg, sent[|sent| - 1]))
    }

    /** The monotonic clock: it never goes back. */
    method Now() returns (now: int)
      modifies this`clock
      ensures now == clock >= old(clock)
    {
      var reading: int := *;
      if reading > clock { clock := reading; }
      now := clock;
    }

    /** True after at least the delay; false if cancelled. */
    method Wait(delay: int) returns (ok: bool)
      modifies this`clock
      ensures clock >= old(clock) && (ok ==> clock >= old(clock) + delay)
    {
      ok := *;
      var now := Now();
      if ok && delay > 0 { clock := clock + delay; }
    }

    method Deliver() returns (a: Answer)
      modifies this`clock
      ensures a.status != Leased && clock >= old(clock)
    {
      var now := Now();
      a := *;
      if a.status == Leased { a := a.(status := Pending); }
    }

    /** The request, and what to record of it.  There is an answer exactly when
        a request was sent, and then it is on record with its exact hold; there
        is none only for a row not allowed or out of time. */
    method Request(n: Notice) returns (answer: Option<Answer>, o: Outcome)
      requires Valid() && clock >= nextSend
      modifies this`clock, this`nextSend, this`sent
      ensures Valid() && clock >= old(clock) && Justified(cfg, n, answer, o)
      ensures answer.None? ==> sent == old(sent) && nextSend == old(nextSend)
      ensures answer.None? ==> !Allowed(cfg, n.key.chat) || n.expires * NS_PER_US <= clock
      ensures answer.Some? ==>
                && |sent| == |old(sent)| + 1 && sent[..|old(sent)|] == old(sent)
                && (var s := sent[|old(sent)|];
                    s.attempts == n.attempts && s.answer == answer.value && s.start < n.expires * NS_PER_US
                        && nextSend == Hold(cfg, s)
                    && (answer.value.status == Pending ==>
                        o.next == s.end + Backoff(s.attempts, s.jitter, s.answer.retryAfter)))
    {
      var now := Now();
      o := Outcome(Dead, Expired, now);
      answer := None;
      if !Allowed(cfg, n.key.chat) {
        o := o.(reason := PolicyRemoved);
      } else if now < n.expires * NS_PER_US {
        var start := now;
        var r := Deliver();
        answer := Some(r);
        now := Now();
        o := Outcome(r.status, r.reason, now);
        nextSend := now + cfg.minInterval;
        var jitter: real := 0.0;
        if r.status == Pending {
          jitter := *;
          var delay := RetryDelay(n.attempts, jitter);
          hide RetryDelay;
          if r.retryAfter > delay { delay := r.retryAfter; }
          o := o.(next := now + delay);
          if r.rateLimited { nextSend := o.next; }
          if n.attempts >= cfg.max {
            o := o.(status := Dead, reason := AttemptsExhausted);
          } else if o.next >= n.expires * NS_PER_US {
            o := o.(status := Dead, reason := Expired);
          }
        }
        sent := sent + [Sent(start, now, n.attempts, jitter, r)];
      }
    }

    method Attempt(e: NoticeId, n: Notice) returns (answer: Option<Answer>, o: Outcome)
      requires Valid() && n.token.Some? && clock >= nextSend
      modifies this`clock, this`nextSend, this`sent, store
      ensures Valid() && clock >= old(clock) && Justified(cfg, n, answer, o)
      ensures answer.None? ==> sent == old(sent)
      ensures answer.None? ==> !Allowed(cfg, n.key.chat) || n.expires * NS_PER_US <= clock
      ensures answer.Some? ==>
                |sent| == |old(sent)| + 1 && sent[..|old(sent)|] == old(sent)
                    && sent[|old(sent)|].answer == answer.value
      ensures exists now ::
                var next := o.next / NS_PER_US;
                store.View() == Finish(old(store.View()), e, n.token.value, o.status, o.reason, next, now).0
    {
      hide Justified, Finish, Valid, Hold, Backoff;
      answer, o := Request(n);
      var finish: int := *;
      var changed := store.FinishNotification(e, n.token.value, o.status, o.reason, o.next / NS_PER_US, finish);
    }

    method MaintainWhenDue() returns (ok: bool)
      modifies this`clock, this`nextMaintenance, store
      ensures clock >= old(clock)
    {
      ok := true;
      var now := Now();
      if now >= nextMaintenance {
        var clocks: Sweep, rows: set<NoticeId>, keys: set<Key> := *, *, *;
        var sweep;
        ok, sweep := store.MaintainNotifications(Policy(cfg.enabled, cfg.allowlist, cfg.max), cfg.retentionMs, 250,
            clocks, rows, keys);
        nextMaintenance := now + 60 * SECOND;
      }
    }

    method RunCycle()
      requires Valid()
      modifies this, store
      ensures Valid() && |old(sent)| <= |sent| <= |old(sent)| + (if cfg.batch > 0 then cfg.batch else 0)
      ensures sent[..|old(sent)|] == old(sent) && clock >= old(clock)
      ensures !cfg.enabled || cfg.allowlist == {} ==> sent == old(sent)
    {
      hide Justified, Finish, Maintain, Claim, Valid;
      var ok := MaintainWhenDue();
      if !ok || !cfg.enabled || cfg.allowlist == {} { return; }
      var i := 0;
      while i < cfg.batch
        invariant Valid() && 0 <= i && (i <= cfg.batch || i == 0)
        invariant |old(sent)| <= |sent| <= |old(sent)| + i && sent[..|old(sent)|] == old(sent) && clock >= old(clock)
      {
        var ready := Wait(nextSend - clock);
        if !ready { return; }
        var reading: int, token: Token, locked: set<NoticeId> := *, *, *;
        var e, n := ClaimOne(reading, token, locked);
        if n.None? { return; }
        var answer, o := Attempt(e, n.value);
        i := i + 1;
      }
    }

    /** Lease one row, never a batch of them, and that row alone: at this reading
        of the clock there is none exactly when no row can be claimed that other
        claims have not locked, and otherwise it is the first that is due. */
    method ClaimOne(now: int, token: Token, locked: set<NoticeId>) returns (e: NoticeId, n: Option<Notice>)
      modifies store
      ensures n.None? ==> store.View() == old(store.View())
      ensures n.None? <==> cfg.max < 1 || Claimables(old(store.outbox), now, cfg.allowlist, cfg.max, locked) == {}
      ensures n.Some? ==>
                && e in old(store.outbox) && Claimable(old(store.outbox)[e], now, cfg.allowlist, cfg.max)
                && e !in locked
                && Picking.FirstFew(Claimables(old(store.outbox), now, cfg.allowlist, cfg.max, locked),
                    NextAndReceived(old(store.outbox)), 1, {e})
                && store.View() == old(store.View()).(outbox := old(store.outbox)[e := n.value])
                && n.value.status == Leased && n.value.token == Some(token)
                && n.value.until == Some(now + Lease() * 1000)
                && n.value.attempts == old(store.outbox)[e].attempts + 1 <= cfg.max && n.value.key.chat in cfg.allowlist
    {
      n, e := store.ClaimNotification(now, cfg.allowlist, cfg.max, Lease(), token, locked);
    }

    /** In milliseconds: the request's time limit and some more, half a minute at
        least. */
    function Lease(): (ms: int)
      ensures 30000 <= ms && cfg.timeout < ms * 1000000
    {
      var lease := if cfg.timeout + 10 * SECOND < 30 * SECOND then 30 * SECOND else cfg.timeout + 10 * SECOND;
      lease / 1000000
    }
  }
}
