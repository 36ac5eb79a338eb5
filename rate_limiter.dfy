/**
 * The sliding-window rate limiter of src/notion/utils/rate-limiter.ts.
 *
 * The limiter keeps a ledger of grant timestamps and a queue of waiting
 * callers. The clock is passed in as `now` (milliseconds), a caller's
 * promise is identified by a ticket `caller`, and the self-rescheduling
 * `setTimeout(processQueue, 50)` becomes `ProcessQueue(now)`, a step the
 * environment calls; its outcome says whether the source would schedule the
 * next step.
 *
 * The pure functions `Prune`, `AcquireSpec` and `StepSpec` describe each
 * operation on a `Limiter` value; the methods of `RateLimiter` are proved to
 * follow them, and the lemmas state what the limiter guarantees.
 */
module RateLimiting {
  import opened Wrappers

  const DefaultMaxRequests := 3
  const DefaultWindowMs := 1000
  /** A queued caller granted after waiting longer than this is reported. */
  const SlowWaitMs := 1000
  /** Delay before the next queue step is scheduled. */
  const StepIntervalMs := 50

  /** A queued caller: its ticket and the time it was enqueued. */
  datatype Waiter = Waiter(caller: nat, timestamp: int)

  /** The state of a limiter: ledger, queue and configuration. */
  datatype Limiter = Limiter(requestTimestamps: seq<int>, queue: seq<Waiter>, maxRequests: int, windowMs: int)

  const Initial := Limiter([], [], DefaultMaxRequests, DefaultWindowMs)

  /** `Admitted`: granted on the fast path. `Enqueued`: queued, and whether draining started. */
  datatype AcquireOutcome = Admitted | Enqueued(drainStarted: bool)

  /**
   * `Idle`: the queue was empty; no further step is scheduled.
   * `Blocked`: no capacity; the next step is scheduled.
   * `Served`: the head waiter was granted (`slowWait` if it waited over
   * `SlowWaitMs`); the next step is scheduled.
   */
  datatype StepOutcome = Idle | Blocked | Served(waiter: Waiter, slowWait: bool)

  predicate Reschedules(o: StepOutcome) {
    !o.Idle?
  }

  predicate InWindow(t: int, now: int, windowMs: int) {
    now - t < windowMs
  }

  /** The ledger entries still inside the window ending at `now`, in their original order. */
  function Prune(ts: seq<int>, now: int, windowMs: int): (r: seq<int>)
    ensures |r| <= |ts|
    ensures forall t :: t in r <==> t in ts && InWindow(t, now, windowMs)
  {
    if ts == [] then []
    else (if InWindow(ts[0], now, windowMs) then [ts[0]] else []) + Prune(ts[1..], now, windowMs)
  }

  /** Pruning distributes over concatenation, so it keeps the relative order of what it keeps. */
  lemma {:induction false} PruneAppend(a: seq<int>, b: seq<int>, now: int, windowMs: int)
    ensures Prune(a + b, now, windowMs) == Prune(a, now, windowMs) + Prune(b, now, windowMs)
  {
    if a == [] {
      assert a + b == b;
    } else {
      assert (a + b)[0] == a[0] && (a + b)[1..] == a[1..] + b;
      PruneAppend(a[1..], b, now, windowMs);
    }
  }

  /** Pruning at the same instant twice is the same as pruning once. */
  lemma {:induction false} PruneIdempotent(ts: seq<int>, now: int, windowMs: int)
    ensures Prune(Prune(ts, now, windowMs), now, windowMs) == Prune(ts, now, windowMs)
  {
    if ts != [] {
      var head := if InWindow(ts[0], now, windowMs) then [ts[0]] else [];
      PruneAppend(head, Prune(ts[1..], now, windowMs), now, windowMs);
      PruneIdempotent(ts[1..], now, windowMs);
    }
  }

  lemma NothingInWindow(ts: seq<int>, now: int, windowMs: int)
    requires forall i :: 0 <= i < |ts| ==> !InWindow(ts[i], now, windowMs)
    ensures Prune(ts, now, windowMs) == []
  {
  }

  /** The number of ledger entries inside the window ending at `now`. */
  function InWindowCount(s: Limiter, now: int): nat {
    |Prune(s.requestTimestamps, now, s.windowMs)|
  }

  /** The whole ledger fits the quota; then so does every window of it. */
  predicate WithinQuota(s: Limiter) {
    |s.requestTimestamps| <= s.maxRequests
  }

  /** `acquire()` at time `now` by caller `caller`. */
  function AcquireSpec(s: Limiter, now: int, caller: nat): (Limiter, AcquireOutcome) {
    var kept := Prune(s.requestTimestamps, now, s.windowMs);
    if |kept| < s.maxRequests then
      (s.(requestTimestamps := kept + [now]), Admitted)
    else
      (s.(requestTimestamps := kept, queue := s.queue + [Waiter(caller, now)]), Enqueued(|s.queue| == 0))
  }

  /** One run of `processQueue()` at time `now`. */
  function StepSpec(s: Limiter, now: int): (Limiter, StepOutcome) {
    if |s.queue| == 0 then (s, Idle)
    else
      var kept := Prune(s.requestTimestamps, now, s.windowMs);
      if |kept| < s.maxRequests then
        var w := s.queue[0];
        (s.(requestTimestamps := kept + [now], queue := s.queue[1..]), Served(w, now - w.timestamp > SlowWaitMs))
      else
        (s.(requestTimestamps := kept), Blocked)
  }

  /** `updateConfig(maxRequests, windowMs)`. */
  function UpdateConfigSpec(s: Limiter, maxRequests: int, windowMs: int): Limiter {
    s.(maxRequests := maxRequests, windowMs := windowMs)
  }

  // ---------------------------------------------------------------------------
  // Single operations

  /**
   * `acquire` admits on the fast path exactly when the pruned ledger has room,
   * appending `now` and leaving the queue alone; otherwise it appends one
   * waiter at the tail, and draining starts exactly when the queue was empty.
   */
  lemma AcquireBehaviour(s: Limiter, now: int, caller: nat)
    ensures var (s', o) := AcquireSpec(s, now, caller);
      && (o == Admitted <==> InWindowCount(s, now) < s.maxRequests)
      && (o == Admitted ==> s'.requestTimestamps == Prune(s.requestTimestamps, now, s.windowMs) + [now] && s'.queue == s.queue)
      && (o.Enqueued? ==> s'.requestTimestamps == Prune(s.requestTimestamps, now, s.windowMs)
                          && s'.queue == s.queue + [Waiter(caller, now)]
                          && (o.drainStarted <==> |s'.queue| == 1))
      && s'.maxRequests == s.maxRequests && s'.windowMs == s.windowMs
  {
  }

  /**
   * A step on an empty queue changes nothing and is not rescheduled. On a
   * non-empty queue it either grants exactly the head waiter, appending `now`,
   * or, without capacity, only prunes the ledger; both reschedule.
   */
  lemma StepBehaviour(s: Limiter, now: int)
    ensures var (s', o) := StepSpec(s, now);
      && (|s.queue| == 0 ==> s' == s && !Reschedules(o))
      && (|s.queue| > 0 ==> Reschedules(o))
      && (o.Served? <==> |s.queue| > 0 && InWindowCount(s, now) < s.maxRequests)
      && (o.Served? ==> o.waiter == s.queue[0] && s'.queue == s.queue[1..]
                        && s'.requestTimestamps == Prune(s.requestTimestamps, now, s.windowMs) + [now])
      && (o.Blocked? ==> s' == s.(requestTimestamps := Prune(s.requestTimestamps, now, s.windowMs)))
  {
  }

  /** Every grant, fast path or queued, leaves at most `maxRequests` entries in the ledger and in its window. */
  lemma GrantRespectsQuota(s: Limiter, now: int, caller: nat)
    ensures var (s', o) := AcquireSpec(s, now, caller);
      o == Admitted ==> WithinQuota(s') && InWindowCount(s', now) <= s'.maxRequests
    ensures var (s', o) := StepSpec(s, now);
      o.Served? ==> WithinQuota(s') && InWindowCount(s', now) <= s'.maxRequests
  {
  }

  /** A ledger that fits the quota has at most `maxRequests` entries in any window, at any instant. */
  lemma QuotaBoundsEveryWindow(s: Limiter, t: int)
    requires WithinQuota(s)
    ensures InWindowCount(s, t) <= s.maxRequests
  {
  }

  /** Acquiring and stepping keep the ledger within the quota. */
  lemma QuotaPreserved(s: Limiter, now: int, caller: nat)
    requires WithinQuota(s)
    ensures WithinQuota(AcquireSpec(s, now, caller).0)
    ensures WithinQuota(StepSpec(s, now).0)
  {
  }

  /** Changing the configuration touches neither the ledger nor the queue. */
  lemma UpdateConfigKeepsLedgerAndQueue(s: Limiter, maxRequests: int, windowMs: int)
    ensures var s' := UpdateConfigSpec(s, maxRequests, windowMs);
      s'.requestTimestamps == s.requestTimestamps && s'.queue == s.queue
      && s'.maxRequests == maxRequests && s'.windowMs == windowMs
  {
  }

  /**
   * The fast path does not look at the queue: with three stale grants and one
   * waiter still queued, a fresh caller is admitted ahead of the waiter.
   */
  lemma FastPathBypassesQueue()
    ensures var s := Limiter([0, 0, 0], [Waiter(1, 0)], DefaultMaxRequests, DefaultWindowMs);
      AcquireSpec(s, 1000, 2) == (Limiter([1000], [Waiter(1, 0)], DefaultMaxRequests, DefaultWindowMs), Admitted)
  {
    var s := Limiter([0, 0, 0], [Waiter(1, 0)], DefaultMaxRequests, DefaultWindowMs);
    NothingInWindow([0, 0, 0], 1000, 1000);
    assert Prune(s.requestTimestamps, 1000, s.windowMs) == [];
    assert [] + [1000] == [1000];
  }

  // ---------------------------------------------------------------------------
  // Runs: any interleaving of acquires, steps and configuration changes

  datatype Op = AcquireOp(now: int, caller: nat) | StepOp(now: int) | UpdateConfigOp(maxRequests: int, windowMs: int)

  function Apply(s: Limiter, op: Op): Limiter {
    match op
    case AcquireOp(now, caller) => AcquireSpec(s, now, caller).0
    case StepOp(now) => StepSpec(s, now).0
    case UpdateConfigOp(m, w) => UpdateConfigSpec(s, m, w)
  }

  function Run(s: Limiter, ops: seq<Op>): Limiter
    decreases |ops|
  {
    if ops == [] then s else Run(Apply(s, ops[0]), ops[1..])
  }

  /** Waiters put on the queue by `op`. */
  function EnqueuedBy(s: Limiter, op: Op): seq<Waiter> {
    match op
    case AcquireOp(now, caller) =>
      if AcquireSpec(s, now, caller).1.Enqueued? then [Waiter(caller, now)] else []
    case _ => []
  }

  /** Waiters granted by `op` from the queue. */
  function ServedBy(s: Limiter, op: Op): seq<Waiter> {
    match op
    case StepOp(now) =>
      var o := StepSpec(s, now).1;
      if o.Served? then [o.waiter] else []
    case _ => []
  }

  function EnqueuedDuring(s: Limiter, ops: seq<Op>): seq<Waiter>
    decreases |ops|
  {
    if ops == [] then [] else EnqueuedBy(s, ops[0]) + EnqueuedDuring(Apply(s, ops[0]), ops[1..])
  }

  function ServedDuring(s: Limiter, ops: seq<Op>): seq<Waiter>
    decreases |ops|
  {
    if ops == [] then [] else ServedBy(s, ops[0]) + ServedDuring(Apply(s, ops[0]), ops[1..])
  }

  /**
   * Queued waiters are granted in enqueue order: over any run, the waiters
   * granted from the queue followed by those still waiting are exactly the
   * waiters queued at the start followed by those enqueued during the run.
   * So the granted ones are always a prefix of the arrival order.
   */
  lemma OneOpIsFifo(s: Limiter, op: Op)
    ensures ServedBy(s, op) + Apply(s, op).queue == s.queue + EnqueuedBy(s, op)
  {
    if op.StepOp? && StepSpec(s, op.now).1.Served? {
      assert [s.queue[0]] + s.queue[1..] == s.queue;
    }
  }

  lemma {:induction false} QueueIsFifo(s: Limiter, ops: seq<Op>)
    ensures ServedDuring(s, ops) + Run(s, ops).queue == s.queue + EnqueuedDuring(s, ops)
    decreases |ops|
  {
    if ops == [] {
      assert [] + s.queue == s.queue + [];
    } else {
      var s1, rest := Apply(s, ops[0]), ops[1..];
      QueueIsFifo(s1, rest);
      OneOpIsFifo(s, ops[0]);
      assert ServedDuring(s, ops) == ServedBy(s, ops[0]) + ServedDuring(s1, rest);
      assert EnqueuedDuring(s, ops) == EnqueuedBy(s, ops[0]) + EnqueuedDuring(s1, rest);
      assert Run(s, ops) == Run(s1, rest);
      Regroup(ServedBy(s, ops[0]), ServedDuring(s1, rest), Run(s1, rest).queue,
              s1.queue, s.queue, EnqueuedBy(s, ops[0]), EnqueuedDuring(s1, rest));
    }
  }

  lemma Regroup<T>(a: seq<T>, b: seq<T>, c: seq<T>, mid: seq<T>, q: seq<T>, e: seq<T>, e': seq<T>)
    requires b + c == mid + e' && a + mid == q + e
    ensures (a + b) + c == q + (e + e')
  {
    calc {
      (a + b) + c;
      a + (mid + e');
      (q + e) + e';
    }
  }

  /** A waiter granted during a run is the one at the same position in the arrival order. */
  lemma ServedInArrivalOrder(s: Limiter, ops: seq<Op>, i: nat)
    requires i < |ServedDuring(s, ops)|
    ensures i < |s.queue + EnqueuedDuring(s, ops)|
    ensures ServedDuring(s, ops)[i] == (s.queue + EnqueuedDuring(s, ops))[i]
  {
    QueueIsFifo(s, ops);
  }

  predicate NoConfigChange(ops: seq<Op>) {
    forall i :: 0 <= i < |ops| ==> !ops[i].UpdateConfigOp?
  }

  /**
   * From a ledger within the quota, as long as the configuration stays put,
   * the ledger stays within the quota: at every instant `t` after the run at
   * most `maxRequests` ledger entries lie inside the window ending at `t`.
   */
  lemma {:induction false} QuotaAlongRun(s: Limiter, ops: seq<Op>, t: int)
    requires WithinQuota(s) && NoConfigChange(ops)
    ensures Run(s, ops).maxRequests == s.maxRequests && Run(s, ops).windowMs == s.windowMs
    ensures WithinQuota(Run(s, ops))
    ensures InWindowCount(Run(s, ops), t) <= s.maxRequests
    decreases |ops|
  {
    if ops != [] {
      var s1 := Apply(s, ops[0]);
      match ops[0] {
        case AcquireOp(now, caller) => QuotaPreserved(s, now, caller);
        case StepOp(now) => QuotaPreserved(s, now, 0);
        case UpdateConfigOp(_, _) => assert false;
      }
      NoConfigChangeTail(ops);
      QuotaAlongRun(s1, ops[1..], t);
    }
  }

  lemma NoConfigChangeTail(ops: seq<Op>)
    requires ops != [] && NoConfigChange(ops)
    ensures !ops[0].UpdateConfigOp? && NoConfigChange(ops[1..])
  {
    forall i | 0 <= i < |ops[1..]| ensures !ops[1..][i].UpdateConfigOp? {
      assert ops[1..][i] == ops[i + 1];
    }
  }

  // ---------------------------------------------------------------------------
  // The window invariant on grants

  /** The grant times `op` makes: `now` when it admits a caller or serves a waiter. */
  function GrantedBy(s: Limiter, op: Op): seq<int> {
    match op
    case AcquireOp(now, caller) => if AcquireSpec(s, now, caller).1 == Admitted then [now] else []
    case StepOp(now) => if StepSpec(s, now).1.Served? then [now] else []
    case _ => []
  }

  /** Every grant made during a run, fast path and queued, in order. */
  function GrantsDuring(s: Limiter, ops: seq<Op>): seq<int>
    decreases |ops|
  {
    if ops == [] then [] else GrantedBy(s, ops[0]) + GrantsDuring(Apply(s, ops[0]), ops[1..])
  }

  /**
   * The clock never goes back: every acquire and step of `ops` happens at or
   * after `from` and at or after the one before it.
   */
  predicate ClockRuns(ops: seq<Op>, from: int)
    decreases |ops|
  {
    ops == [] ||
    match ops[0]
    case UpdateConfigOp(_, _) => ClockRuns(ops[1..], from)
    case _ => from <= ops[0].now && ClockRuns(ops[1..], ops[0].now)
  }

  /** The number of entries of `ts` inside the window `(c - windowMs, c]`. */
  function GrantsInWindow(ts: seq<int>, c: int, windowMs: int): nat {
    if ts == [] then 0
    else (if InWindow(ts[0], c, windowMs) && ts[0] <= c then 1 else 0) + GrantsInWindow(ts[1..], c, windowMs)
  }

  lemma {:induction false} GrantsInWindowAppend(a: seq<int>, b: seq<int>, c: int, windowMs: int)
    ensures GrantsInWindow(a + b, c, windowMs) == GrantsInWindow(a, c, windowMs) + GrantsInWindow(b, c, windowMs)
  {
    if a == [] {
      assert a + b == b;
    } else {
      assert (a + b)[0] == a[0] && (a + b)[1..] == a[1..] + b;
      GrantsInWindowAppend(a[1..], b, c, windowMs);
    }
  }

  /** The window ending at `c` holds no more entries than pruning at `c` keeps. */
  lemma {:induction false} GrantsInWindowBelowPrune(ts: seq<int>, c: int, windowMs: int)
    ensures GrantsInWindow(ts, c, windowMs) <= |Prune(ts, c, windowMs)|
  {
    if ts != [] {
      GrantsInWindowBelowPrune(ts[1..], c, windowMs);
    }
  }

  /** Pruning at an instant and then at a later one is pruning at the later one. */
  lemma {:induction false} PruneLater(ts: seq<int>, now: int, c: int, windowMs: int)
    requires now <= c
    ensures Prune(Prune(ts, now, windowMs), c, windowMs) == Prune(ts, c, windowMs)
  {
    if ts != [] {
      var head := if InWindow(ts[0], now, windowMs) then [ts[0]] else [];
      PruneAppend(head, Prune(ts[1..], now, windowMs), now, windowMs);
      PruneAppend(head, Prune(ts[1..], now, windowMs), c, windowMs);
      PruneLater(ts[1..], now, c, windowMs);
    }
  }

  /**
   * The ledger forgets no grant that is still in the window: at every instant
   * from `clock` on, the history of grants and the ledger keep the same
   * entries.
   */
  ghost predicate LedgerKeepsHistory(history: seq<int>, ledger: seq<int>, clock: int, windowMs: int) {
    forall c :: clock <= c ==> Prune(history, c, windowMs) == Prune(ledger, c, windowMs)
  }

  /** What one acquire or step does to the ledger: nothing, or prune at `now` and record its grants. */
  lemma LedgerAfter(s: Limiter, op: Op)
    requires !op.UpdateConfigOp?
    ensures || (Apply(s, op).requestTimestamps == s.requestTimestamps && GrantedBy(s, op) == [])
            || Apply(s, op).requestTimestamps == Prune(s.requestTimestamps, op.now, s.windowMs) + GrantedBy(s, op)
    ensures Apply(s, op).windowMs == s.windowMs && Apply(s, op).maxRequests == s.maxRequests
  {
    var kept := Prune(s.requestTimestamps, op.now, s.windowMs);
    assert kept + [] == kept;
  }

  /** An acquire or step at or after `clock` keeps the ledger in step with the history of grants. */
  lemma OneOpKeepsHistory(s: Limiter, op: Op, history: seq<int>, clock: int)
    requires !op.UpdateConfigOp? && clock <= op.now
    requires LedgerKeepsHistory(history, s.requestTimestamps, clock, s.windowMs)
    ensures LedgerKeepsHistory(history + GrantedBy(s, op), Apply(s, op).requestTimestamps, op.now, s.windowMs)
  {
    var g, w := GrantedBy(s, op), s.windowMs;
    LedgerAfter(s, op);
    forall c | op.now <= c
      ensures Prune(history + g, c, w) == Prune(Apply(s, op).requestTimestamps, c, w)
    {
      PruneAppend(history, g, c, w);
      assert Prune(history, c, w) == Prune(s.requestTimestamps, c, w);
      if Apply(s, op).requestTimestamps == s.requestTimestamps && g == [] {
        assert history + g == history;
      } else {
        PruneAppend(Prune(s.requestTimestamps, op.now, w), g, c, w);
        PruneLater(s.requestTimestamps, op.now, c, w);
      }
    }
  }

  /** Every window of `history` holds at most `maxRequests` entries. */
  ghost predicate WindowsWithinQuota(history: seq<int>, maxRequests: int, windowMs: int) {
    forall c :: GrantsInWindow(history, c, windowMs) <= maxRequests
  }

  /**
   * One acquire or step at or after `clock` keeps both halves of the
   * invariant: the ledger keeps the history from the op's instant on, and
   * every window of the history with the op's grants stays within the quota.
   */
  lemma OneOpKeepsWindowBound(s: Limiter, op: Op, history: seq<int>, clock: int)
    requires WithinQuota(s) && !op.UpdateConfigOp? && clock <= op.now
    requires LedgerKeepsHistory(history, s.requestTimestamps, clock, s.windowMs)
    requires WindowsWithinQuota(history, s.maxRequests, s.windowMs)
    ensures WithinQuota(Apply(s, op))
    ensures Apply(s, op).windowMs == s.windowMs && Apply(s, op).maxRequests == s.maxRequests
    ensures LedgerKeepsHistory(history + GrantedBy(s, op), Apply(s, op).requestTimestamps, op.now, s.windowMs)
    ensures WindowsWithinQuota(history + GrantedBy(s, op), s.maxRequests, s.windowMs)
  {
    var s1, g, w := Apply(s, op), GrantedBy(s, op), s.windowMs;
    LedgerAfter(s, op);
    QuotaPreserved(s, op.now, if op.AcquireOp? then op.caller else 0);
    OneOpKeepsHistory(s, op, history, clock);
    forall c | true
      ensures GrantsInWindow(history + g, c, w) <= s.maxRequests
    {
      if c < op.now {
        GrantsInWindowAppend(history, g, c, w);
        assert GrantsInWindow(g, c, w) == 0;
      } else {
        GrantsInWindowBelowPrune(history + g, c, w);
        assert Prune(history + g, c, w) == Prune(s1.requestTimestamps, c, w);
      }
    }
  }

  lemma ClockRunsTail(ops: seq<Op>, clock: int)
    requires ops != [] && !ops[0].UpdateConfigOp? && ClockRuns(ops, clock)
    ensures clock <= ops[0].now && ClockRuns(ops[1..], ops[0].now)
  {
  }

  /**
   * The invariant along a run: given a history whose every window holds at
   * most `maxRequests` grants and which the ledger keeps from `clock` on,
   * every window of the history extended by the run's grants does too.
   */
  lemma {:induction false} HistoryWindowBound(s: Limiter, ops: seq<Op>, history: seq<int>, clock: int)
    requires WithinQuota(s) && NoConfigChange(ops) && ClockRuns(ops, clock)
    requires LedgerKeepsHistory(history, s.requestTimestamps, clock, s.windowMs)
    requires WindowsWithinQuota(history, s.maxRequests, s.windowMs)
    ensures WindowsWithinQuota(history + GrantsDuring(s, ops), s.maxRequests, s.windowMs)
    decreases |ops|
  {
    if ops == [] {
      assert history + GrantsDuring(s, ops) == history;
    } else {
      var op, rest := ops[0], ops[1..];
      NoConfigChangeTail(ops);
      ClockRunsTail(ops, clock);
      var s1, g := Apply(s, op), GrantedBy(s, op);
      OneOpKeepsWindowBound(s, op, history, clock);
      HistoryWindowBound(s1, rest, history + g, op.now);
      assert history + GrantsDuring(s, ops) == (history + g) + GrantsDuring(s1, rest);
    }
  }

  /**
   * The window invariant on grants: from a ledger within the quota, as long
   * as the configuration stays put and the clock never goes back, every
   * window `(c - windowMs, c]` holds at most `maxRequests` of the grants
   * recorded at the start and made during the run, fast path and queued.
   */
  lemma WindowBoundAlongRun(s: Limiter, ops: seq<Op>, clock: int, c: int)
    requires WithinQuota(s) && NoConfigChange(ops) && ClockRuns(ops, clock)
    ensures GrantsInWindow(s.requestTimestamps + GrantsDuring(s, ops), c, s.windowMs) <= s.maxRequests
  {
    forall c' ensures GrantsInWindow(s.requestTimestamps, c', s.windowMs) <= s.maxRequests {
      GrantsInWindowBelowPrune(s.requestTimestamps, c', s.windowMs);
    }
    HistoryWindowBound(s, ops, s.requestTimestamps, clock);
  }

  /**
   * A burst of five callers at the same instant `t` under the default 3 per
   * 1000 ms: three are admitted at once and two wait in arrival order; a step
   * before the window has passed grants nobody, and the step at `t + 1000`
   * grants the first waiter only.
   */
  lemma BurstScenario(t: int, c1: nat, c2: nat, c3: nat, c4: nat, c5: nat)
    ensures var s := Run(Initial, [AcquireOp(t, c1), AcquireOp(t, c2), AcquireOp(t, c3), AcquireOp(t, c4), AcquireOp(t, c5)]);
      && s.requestTimestamps == [t, t, t]
      && s.queue == [Waiter(c4, t), Waiter(c5, t)]
      && StepSpec(s, t + 999).1 == Blocked
      && StepSpec(s, t + 1000).1 == Served(Waiter(c4, t), false)
      && StepSpec(s, t + 1000).0.queue == [Waiter(c5, t)]
  {
    var s5 := Limiter([t, t, t], [Waiter(c4, t), Waiter(c5, t)], DefaultMaxRequests, DefaultWindowMs);
    BurstArrivals(t, c1, c2, c3, c4, c5);
    assert StepSpec(s5, t + 999).1 == Blocked by {
      AllInWindow([t, t, t], t + 999, DefaultWindowMs);
    }
    assert StepSpec(s5, t + 1000) == (s5.(requestTimestamps := [t + 1000], queue := [Waiter(c5, t)]), Served(Waiter(c4, t), false)) by {
      NothingInWindow([t, t, t], t + 1000, DefaultWindowMs);
      assert [] + [t + 1000] == [t + 1000];
      assert s5.queue[1..] == [Waiter(c5, t)];
    }
  }

  lemma BurstArrivals(t: int, c1: nat, c2: nat, c3: nat, c4: nat, c5: nat)
    ensures Run(Initial, [AcquireOp(t, c1), AcquireOp(t, c2), AcquireOp(t, c3), AcquireOp(t, c4), AcquireOp(t, c5)])
         == Limiter([t, t, t], [Waiter(c4, t), Waiter(c5, t)], DefaultMaxRequests, DefaultWindowMs)
  {
    var m, w := DefaultMaxRequests, DefaultWindowMs;
    var s1 := Limiter([t], [], m, w);
    var s2 := Limiter([t, t], [], m, w);
    var s3 := Limiter([t, t, t], [], m, w);
    var s4 := Limiter([t, t, t], [Waiter(c4, t)], m, w);
    var s5 := Limiter([t, t, t], [Waiter(c4, t), Waiter(c5, t)], m, w);
    SimultaneousAcquire([], [], t, c1);
    SimultaneousAcquire([t], [], t, c2);
    SimultaneousAcquire([t, t], [], t, c3);
    SimultaneousAcquire([t, t, t], [], t, c4);
    SimultaneousAcquire([t, t, t], [Waiter(c4, t)], t, c5);
    assert [] + [t] == [t] && [t] + [t] == [t, t] && [t, t] + [t] == [t, t, t];
    assert [] + [Waiter(c4, t)] == [Waiter(c4, t)];
    assert [Waiter(c4, t)] + [Waiter(c5, t)] == [Waiter(c4, t), Waiter(c5, t)];
    RunOfFive(Initial, s1, s2, s3, s4, s5, AcquireOp(t, c1), AcquireOp(t, c2), AcquireOp(t, c3), AcquireOp(t, c4), AcquireOp(t, c5));
  }

  /** A run of five operations passes through the states each of them reaches. */
  lemma RunOfFive(s0: Limiter, s1: Limiter, s2: Limiter, s3: Limiter, s4: Limiter, s5: Limiter, o1: Op, o2: Op, o3: Op, o4: Op, o5: Op)
    requires Apply(s0, o1) == s1 && Apply(s1, o2) == s2 && Apply(s2, o3) == s3
    requires Apply(s3, o4) == s4 && Apply(s4, o5) == s5
    ensures Run(s0, [o1, o2, o3, o4, o5]) == s5
  {
    assert [o1, o2, o3, o4, o5][1..] == [o2, o3, o4, o5];
    assert [o2, o3, o4, o5][1..] == [o3, o4, o5];
    assert [o3, o4, o5][1..] == [o4, o5];
    assert [o4, o5][1..] == [o5];
    assert Run(s5, []) == s5;
    assert Run(s4, [o5]) == s5;
    assert Run(s3, [o4, o5]) == s5;
    assert Run(s2, [o3, o4, o5]) == s5;
    assert Run(s1, [o2, o3, o4, o5]) == s5;
  }

  /** An acquire at the instant of every grant in the ledger, under the defaults. */
  lemma SimultaneousAcquire(ts: seq<int>, q: seq<Waiter>, t: int, caller: nat)
    requires forall i :: 0 <= i < |ts| ==> ts[i] == t
    ensures var s := Limiter(ts, q, DefaultMaxRequests, DefaultWindowMs);
      Apply(s, AcquireOp(t, caller))
        == if |ts| < DefaultMaxRequests then s.(requestTimestamps := ts + [t])
           else s.(queue := q + [Waiter(caller, t)])
  {
    AllInWindow(ts, t, DefaultWindowMs);
  }


  lemma {:induction false} AllInWindow(ts: seq<int>, now: int, windowMs: int)
    requires forall i :: 0 <= i < |ts| ==> InWindow(ts[i], now, windowMs)
    ensures Prune(ts, now, windowMs) == ts
  {
    if ts != [] {
      AllInWindow(ts[1..], now, windowMs);
      assert [ts[0]] + ts[1..] == ts;
    }
  }

  // ---------------------------------------------------------------------------
  // The limiter object

  class RateLimiter {
    var queue: seq<Waiter>
    var maxRequests: int
    var windowMs: int
    var requestTimestamps: seq<int>

    function State(): Limiter
      reads this
    {
      Limiter(requestTimestamps, queue, maxRequests, windowMs)
    }

    /** Defaults: 3 requests per 1000 ms, empty ledger and queue. */
    constructor ()
      ensures State() == Initial
    {
      queue := [];
      maxRequests := DefaultMaxRequests;
      windowMs := DefaultWindowMs;
      requestTimestamps := [];
    }

    method CleanOldTimestamps(now: int)
      modifies this`requestTimestamps
      ensures requestTimestamps == Prune(old(requestTimestamps), now, windowMs)
    {
      requestTimestamps := Prune(requestTimestamps, now, windowMs);
    }

    method CanMakeRequest(now: int) returns (ok: bool)
      modifies this`requestTimestamps
      ensures requestTimestamps == Prune(old(requestTimestamps), now, windowMs)
      ensures ok <==> |requestTimestamps| < maxRequests
    {
      CleanOldTimestamps(now);
      ok := |requestTimestamps| < maxRequests;
    }

    /** One run of the queue drain; the outcome says whether the next run is scheduled. */
    method ProcessQueue(now: int) returns (o: StepOutcome)
      modifies this
      ensures (State(), o) == StepSpec(old(State()), now)
      ensures o.Served? ==> o.waiter == old(queue)[0] && WithinQuota(State())
    {
      if |queue| == 0 {
        return Idle;
      }
      var ok := CanMakeRequest(now);
      if ok {
        var item := queue[0];
        queue := queue[1..];
        var waitTime := now - item.timestamp;
        requestTimestamps := requestTimestamps + [now];
        o := Served(item, waitTime > SlowWaitMs);
      } else {
        o := Blocked;
      }
    }

    /**
     * Admission: granted at once when the window has room, otherwise queued at
     * the tail; the first waiter of an empty queue starts the drain, whose
     * first run happens at the same instant and so grants nobody.
     */
    method Acquire(now: int, caller: nat) returns (o: AcquireOutcome)
      modifies this
      ensures (State(), o) == AcquireSpec(old(State()), now, caller)
      ensures o == Admitted ==> WithinQuota(State()) && queue == old(queue)
    {
      var ok := CanMakeRequest(now);
      if ok {
        requestTimestamps := requestTimestamps + [now];
        return Admitted;
      }
      queue := queue + [Waiter(caller, now)];
      o := Enqueued(|queue| == 1);
      if |queue| == 1 {
        ghost var before := State();
        PruneIdempotent(old(requestTimestamps), now, windowMs);
        var first := ProcessQueue(now);
        assert first == Blocked && State() == before;
      }
    }

    method UpdateConfig(maxRequests: int, windowMs: int)
      modifies this`maxRequests, this`windowMs
      ensures State() == UpdateConfigSpec(old(State()), maxRequests, windowMs)
      ensures requestTimestamps == old(requestTimestamps) && queue == old(queue)
    {
      this.maxRequests := maxRequests;
      this.windowMs := windowMs;
    }
  }
}
