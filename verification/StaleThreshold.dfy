/**
 When a pending message counts as abandoned. A live consumer reads up to one message
 per stream at once and works them off in order, so a message waits, delivered, while
 those ahead of it run. A sweep by any consumer re-queues the messages that have
 been idle for the threshold; taking one from a live consumer would run the job twice.
 */
module StaleThreshold {

  /** The job timeout, how many messages one read can deliver, and the margin. */
  datatype Limits = Limits(timeoutSeconds: nat, slots: nat, margin: nat) {
    function Timeout(): nat { timeoutSeconds * 1000 }

    /** `stale_min_idle_ms` of both workers. */
    function MinIdle(): nat { Timeout() * slots + margin }
  }

  /** The converter reads four tier streams, one message of each. */
  function ConverterLimits(timeoutSeconds: nat): Limits { Limits(timeoutSeconds, 4, 60_000) }

  /** The workspace worker reads one message from one stream. */
  function WorkspaceLimits(timeoutSeconds: nat): Limits { Limits(timeoutSeconds, 1, 60_000) }

  /** A delivered message, and whether a sweep has handed a copy of it to somebody else. */
  datatype Held = Held(delivered: nat, taken: bool)

  /** A consumer, in milliseconds since its last read: the messages still to do, head first,
      the time spent on finished ones, on the head, and on anything else. */
  datatype Consumer = Consumer(alive: bool, held: seq<Held>, finished: nat, busy: nat, running: nat, overhead: nat)

  datatype System = System(now: nat, consumers: map<nat, Consumer>)

  datatype Event =
    | Read(who: nat, messages: nat)         // only when nothing is held: the buffer is served first
    | Tick(ms: nat, working: set<nat>)      // time passes; these consumers run their head job
    | Settle(who: nat)                      // the head is acknowledged
    | Crash(who: nat)
    | Sweep(picks: set<(nat, nat)>)         // any choice of entries, but only stale ones are taken

  const NEWCOMER := Consumer(true, [], 0, 0, 0, 0)

  predicate Stale(now: nat, h: Held, l: Limits) {
    now - h.delivered >= l.MinIdle()
  }

  function Mark(now: nat, c: Consumer, id: nat, picks: set<(nat, nat)>, l: Limits): seq<Held> {
    seq(|c.held|, k requires 0 <= k < |c.held| =>
      if (id, k) in picks && Stale(now, c.held[k], l) then c.held[k].(taken := true) else c.held[k])
  }

  /** What an event does to consumer `id`. */
  function StepOne(now: nat, c: Consumer, id: nat, e: Event, l: Limits): Consumer {
    match e
    case Read(who, n) =>
      if who == id && c.alive && c.held == [] && n <= l.slots
      then Consumer(true, seq(n, _ => Held(now, false)), 0, 0, 0, 0) else c
    case Tick(ms, working) =>
      if id in working && c.held != [] then c.(running := c.running + ms) else c.(overhead := c.overhead + ms)
    case Settle(who) =>
      if who == id && c.alive && c.held != []
      then c.(held := c.held[1..], finished := c.finished + 1, busy := c.busy + c.running, running := 0) else c
    case Crash(who) => if who == id then c.(alive := false) else c
    case Sweep(picks) => c.(held := Mark(now, c, id, picks, l))
  }

  function Step(s: System, e: Event, l: Limits): System {
    System(if e.Tick? then s.now + e.ms else s.now,
           map id | id in s.consumers :: StepOne(s.now, s.consumers[id], id, e, l))
  }

  function Run(s: System, events: seq<Event>, l: Limits): System
    decreases |events|
  {
    if events == [] then s else Run(Step(s, events[0], l), events[1..], l)
  }

  /** Nobody holds anything yet. */
  predicate Idle(s: System) {
    forall id | id in s.consumers :: s.consumers[id].held == []
  }

  // ---------------------------------------------------------------------------
  // Idle time is time spent
  // ---------------------------------------------------------------------------

  /** Every message of a consumer arrived at its last read, and the time since then is exactly
      what it spent on finished jobs, on its head and on overhead. */
  ghost predicate Clocked(now: nat, c: Consumer, l: Limits) {
    && (c.held != [] ==> c.finished + |c.held| <= l.slots)
    && forall k :: 0 <= k < |c.held| ==> now - c.held[k].delivered == c.busy + c.running + c.overhead
  }

  lemma ClockedStep(now: nat, c: Consumer, id: nat, e: Event, l: Limits)
    requires Clocked(now, c, l)
    ensures Clocked(if e.Tick? then now + e.ms else now, StepOne(now, c, id, e, l), l)
  {
    var c' := StepOne(now, c, id, e, l);
    if e.Sweep? {
      assert forall k :: 0 <= k < |c'.held| ==> c'.held[k].delivered == c.held[k].delivered;
    }
  }

  ghost predicate AllClocked(s: System, l: Limits) {
    forall id | id in s.consumers :: Clocked(s.now, s.consumers[id], l)
  }

  lemma ClockedSystemStep(s: System, e: Event, l: Limits)
    requires AllClocked(s, l)
    ensures AllClocked(Step(s, e, l), l)
  {
    forall id | id in s.consumers
      ensures Clocked(Step(s, e, l).now, StepOne(s.now, s.consumers[id], id, e, l), l)
    {
      ClockedStep(s.now, s.consumers[id], id, e, l);
    }
  }

  /** In every run, however slow, a held message has been idle for exactly the time its
      consumer spent since the read that delivered it; so it is stale exactly when that time
      reaches the threshold. */
  lemma {:induction false} IdleIsTimeSpent(s: System, events: seq<Event>, l: Limits)
    requires AllClocked(s, l)
    ensures AllClocked(Run(s, events, l), l)
    decreases |events|
  {
    if events != [] {
      ClockedSystemStep(s, events[0], l);
      IdleIsTimeSpent(Step(s, events[0], l), events[1..], l);
    }
  }

  // ---------------------------------------------------------------------------
  // The threshold never hits a live consumer
  // ---------------------------------------------------------------------------

  /** The assumption of the threshold: a live consumer's job fits the timeout, and everything
      else it does between two reads fits the margin. */
  predicate FitsOne(c: Consumer, l: Limits) {
    c.alive && c.held != [] ==> c.running <= l.Timeout() && c.overhead < l.margin
  }

  predicate Fits(s: System, l: Limits) {
    forall id | id in s.consumers :: FitsOne(s.consumers[id], l)
  }

  /** ... at every moment of a run. */
  predicate AlwaysFits(s: System, events: seq<Event>, l: Limits)
    decreases |events|
  {
    && Fits(s, l)
    && (events == [] || AlwaysFits(Step(s, events[0], l), events[1..], l))
  }

  /** A live consumer still owns all it holds, and its finished jobs fit their timeouts. */
  ghost predicate Safe(c: Consumer, l: Limits) {
    c.alive && c.held != [] ==>
      && c.busy <= c.finished * l.Timeout()
      && forall k :: 0 <= k < |c.held| ==> !c.held[k].taken
  }

  lemma {:induction false} BelowThreshold(finished: nat, slots: nat, t: nat)
    requires finished < slots
    ensures finished * t + t <= slots * t
  {
    Distribute(slots - 1, t);
    if finished < slots - 1 {
      BelowThreshold(finished, slots - 1, t);
    }
  }

  lemma NotStale(now: nat, c: Consumer, k: nat, l: Limits)
    requires Clocked(now, c, l) && FitsOne(c, l) && Safe(c, l)
    requires c.alive && k < |c.held|
    ensures !Stale(now, c.held[k], l)
  {
    BelowThreshold(c.finished, l.slots, l.Timeout());
  }

  lemma SafeStep(now: nat, c: Consumer, id: nat, e: Event, l: Limits)
    requires Clocked(now, c, l) && FitsOne(c, l) && Safe(c, l)
    ensures Safe(StepOne(now, c, id, e, l), l)
  {
    var c' := StepOne(now, c, id, e, l);
    if e.Settle? && c.held != [] {
      Distribute(c.finished, l.Timeout());
    } else if e.Sweep? && c.alive {
      forall k | 0 <= k < |c'.held| ensures !c'.held[k].taken {
        NotStale(now, c, k, l);
      }
    }
  }

  ghost predicate AllSafe(s: System, l: Limits) {
    forall id | id in s.consumers :: Safe(s.consumers[id], l)
  }

  lemma SafeSystemStep(s: System, e: Event, l: Limits)
    requires AllClocked(s, l) && Fits(s, l) && AllSafe(s, l)
    ensures AllClocked(Step(s, e, l), l) && AllSafe(Step(s, e, l), l)
  {
    ClockedSystemStep(s, e, l);
    forall id | id in s.consumers
      ensures Safe(StepOne(s.now, s.consumers[id], id, e, l), l)
    {
      SafeStep(s.now, s.consumers[id], id, e, l);
    }
  }

  lemma Distribute(n: nat, t: nat)
    ensures (n + 1) * t == n * t + t
  {
  }

  /** Every held message of every live consumer is its own, and below the threshold. */
  ghost predicate LiveAreSafe(s: System, l: Limits) {
    forall id, k | id in s.consumers && s.consumers[id].alive && 0 <= k < |s.consumers[id].held| ::
      && !s.consumers[id].held[k].taken
      && !Stale(s.now, s.consumers[id].held[k], l)
  }

  /** Under that assumption, over every run with any number of consumers, crashes and sweeps,
      no message of a live consumer ever reaches the threshold and none is ever taken from it:
      sweeps take from dead consumers only. */
  lemma {:induction false} SweepsTakeFromTheDeadOnly(s: System, events: seq<Event>, l: Limits)
    requires Idle(s) && AlwaysFits(s, events, l)
    ensures LiveAreSafe(Run(s, events, l), l)
  {
    SafeRun(s, events, l);
  }

  lemma {:induction false} SafeRun(s: System, events: seq<Event>, l: Limits)
    requires AlwaysFits(s, events, l) && AllClocked(s, l)
    requires AllSafe(s, l)
    ensures LiveAreSafe(Run(s, events, l), l)
    decreases |events|
  {
    if events == [] {
      forall id, k | id in s.consumers && s.consumers[id].alive && 0 <= k < |s.consumers[id].held|
        ensures !Stale(s.now, s.consumers[id].held[k], l)
      {
        NotStale(s.now, s.consumers[id], k, l);
      }
    } else {
      SafeSystemStep(s, events[0], l);
      SafeRun(Step(s, events[0], l), events[1..], l);
    }
  }

  // ---------------------------------------------------------------------------
  // The threshold is tight
  // ---------------------------------------------------------------------------

  function Alone(now: nat, c: Consumer): System {
    System(now, map[0 := c])
  }

  /** The live consumer 0 by itself: one step is its own step. */
  lemma AloneStep(now: nat, c: Consumer, e: Event, now': nat, c': Consumer, rest: seq<Event>, l: Limits)
    requires now' == if e.Tick? then now + e.ms else now
    requires c' == StepOne(now, c, 0, e, l)
    ensures Run(Alone(now, c), [e] + rest, l) == Run(Alone(now', c'), rest, l)
  {
    var events := [e] + rest;
    assert events[0] == e && events[1..] == rest;
    assert Step(Alone(now, c), e, l) == Alone(now', c');
  }

  function Fresh(n: nat): seq<Held> {
    seq(n, _ => Held(0, false))
  }

  /** One full-length job after another. */
  function Jobs(t: nat, n: nat): seq<Event> {
    if n == 0 then [] else [Tick(t, {0}), Settle(0)] + Jobs(t, n - 1)
  }

  lemma {:induction false} JobsRun(c: Consumer, now: nat, t: nat, n: nat, rest: seq<Event>, l: Limits)
    requires c.alive && c.running == 0 && c.held == Fresh(n + 1)
    ensures Run(Alone(now, c), Jobs(t, n) + rest, l)
            == Run(Alone(now + n * t, Consumer(true, Fresh(1), c.finished + n, c.busy + n * t, 0, c.overhead)), rest, l)
    decreases n
  {
    if n == 0 {
      assert Jobs(t, 0) + rest == rest;
    } else {
      var tail := Jobs(t, n - 1) + rest;
      assert Jobs(t, n) + rest == [Tick(t, {0})] + ([Settle(0)] + tail);
      OneJobRun(c, now, t, n, tail, l);
      JobsRun(Consumer(true, Fresh(n), c.finished + 1, c.busy + t, 0, c.overhead), now + t, t, n - 1, rest, l);
      Distribute(n - 1, t);
    }
  }

  lemma OneJobRun(c: Consumer, now: nat, t: nat, n: nat, tail: seq<Event>, l: Limits)
    requires c.alive && c.running == 0 && c.held == Fresh(n + 1)
    ensures Run(Alone(now, c), [Tick(t, {0})] + ([Settle(0)] + tail), l)
            == Run(Alone(now + t, Consumer(true, Fresh(n), c.finished + 1, c.busy + t, 0, c.overhead)), tail, l)
  {
    var c1 := c.(running := t);
    AloneStep(now, c, Tick(t, {0}), now + t, c1, [Settle(0)] + tail, l);
    assert c.held[1..] == Fresh(n);
    var c2 := Consumer(true, Fresh(n), c.finished + 1, c.busy + t, 0, c.overhead);
    AloneStep(now + t, c1, Settle(0), now + t, c2, tail, l);
  }

  function Sweeping(): seq<Event> { [Sweep({(0, 0)})] + [] }

  function Stalling(overhead: nat): seq<Event> { [Tick(overhead, {})] + Sweeping() }

  /** The last message gets its full timeout as well; then come the stall and the sweep. */
  function LastJob(t: nat, overhead: nat): seq<Event> { [Tick(t, {0})] + Stalling(overhead) }

  function Swept(end: nat, c: Consumer, l: Limits): System {
    Alone(end, c.(held := [Held(0, end >= l.MinIdle())]))
  }

  lemma SweepingRun(now: nat, c: Consumer, l: Limits)
    requires c.held == Fresh(1)
    ensures Run(Alone(now, c), Sweeping(), l) == Swept(now, c, l)
  {
    var swept := [Held(0, now >= l.MinIdle())];
    assert Mark(now, c, 0, {(0, 0)}, l) == swept;
    AloneStep(now, c, Sweep({(0, 0)}), now, c.(held := swept), [], l);
  }

  lemma StallingRun(now: nat, c: Consumer, overhead: nat, l: Limits)
    requires c.held == Fresh(1)
    ensures Run(Alone(now, c), Stalling(overhead), l)
            == Swept(now + overhead, c.(overhead := c.overhead + overhead), l)
  {
    var c' := c.(overhead := c.overhead + overhead);
    AloneStep(now, c, Tick(overhead, {}), now + overhead, c', Sweeping(), l);
    SweepingRun(now + overhead, c', l);
  }

  lemma LastJobRun(now: nat, c: Consumer, t: nat, overhead: nat, l: Limits)
    requires c.held == Fresh(1) && c.running == 0 && c.overhead == 0
    ensures Run(Alone(now, c), LastJob(t, overhead), l)
            == Swept(now + t + overhead, c.(running := t, overhead := overhead), l)
  {
    var c' := c.(running := t);
    AloneStep(now, c, Tick(t, {0}), now + t, c', Stalling(overhead), l);
    StallingRun(now + t, c', overhead, l);
  }

  /** A consumer that reads messages, gives each its full timeout, and then stalls. */
  function SlowRun(messages: nat, t: nat, overhead: nat): seq<Event>
    requires messages > 0
  {
    [Read(0, messages)] + (Jobs(t, messages - 1) + LastJob(t, overhead))
  }

  lemma JobsThenLast(c: Consumer, t: nat, n: nat, overhead: nat, l: Limits)
    requires c == Consumer(true, Fresh(n + 1), 0, 0, 0, 0)
    ensures Run(Alone(0, c), Jobs(t, n) + LastJob(t, overhead), l)
            == Swept(n * t + t + overhead, Consumer(true, Fresh(1), n, n * t, t, overhead), l)
  {
    JobsRun(c, 0, t, n, LastJob(t, overhead), l);
    LastJobRun(n * t, Consumer(true, Fresh(1), n, n * t, 0, 0), t, overhead, l);
  }

  lemma SlowRunEnds(n: nat, t: nat, overhead: nat, l: Limits)
    requires n < l.slots
    ensures var end := n * t + t + overhead;
            Run(Alone(0, NEWCOMER), SlowRun(n + 1, t, overhead), l)
            == Alone(end, Consumer(true, [Held(0, end >= l.MinIdle())], n, n * t, t, overhead))
  {
    var c0 := Consumer(true, Fresh(n + 1), 0, 0, 0, 0);
    assert StepOne(0, NEWCOMER, 0, Read(0, n + 1), l) == c0;
    AloneStep(0, NEWCOMER, Read(0, n + 1), 0, c0, Jobs(t, n) + LastJob(t, overhead), l);
    JobsThenLast(c0, t, n, overhead, l);
  }

  /** Neither the factor nor the margin can be less: a live consumer that fills its slots and
      gives each message its full timeout loses the last one to a sweep exactly when its
      overhead reaches the margin. */
  lemma ThresholdIsTight(l: Limits, overhead: nat)
    requires l.slots > 0
    ensures var end := Run(Alone(0, NEWCOMER), SlowRun(l.slots, l.Timeout(), overhead), l);
            && end.now == l.Timeout() * l.slots + overhead
            && 0 in end.consumers && end.consumers[0].alive
            && end.consumers[0].held == [Held(0, overhead >= l.margin)]
  {
    SlowRunEnds(l.slots - 1, l.Timeout(), overhead, l);
    Distribute(l.slots - 1, l.Timeout());
  }

  /** Both workers' thresholds are tight: the converter's with four jobs, the other's with one. */
  lemma BothThresholdsAreTight(timeoutSeconds: nat, overhead: nat)
    ensures var l, t := ConverterLimits(timeoutSeconds), timeoutSeconds * 1000;
            var end := Run(Alone(0, NEWCOMER), SlowRun(4, t, overhead), l);
            end.now == 4 * t + overhead && 0 in end.consumers && end.consumers[0].alive
            && end.consumers[0].held == [Held(0, overhead >= 60_000)]
    ensures var l, t := WorkspaceLimits(timeoutSeconds), timeoutSeconds * 1000;
            var end := Run(Alone(0, NEWCOMER), SlowRun(1, t, overhead), l);
            end.now == t + overhead && 0 in end.consumers && end.consumers[0].alive
            && end.consumers[0].held == [Held(0, overhead >= 60_000)]
  {
    ThresholdIsTight(ConverterLimits(timeoutSeconds), overhead);
    ThresholdIsTight(WorkspaceLimits(timeoutSeconds), overhead);
  }
}
