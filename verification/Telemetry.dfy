/**
 The bounded telemetry sink: producers that never wait, one background flusher that
 collects batches, a retry buffer for the batch that failed, and health counters.

 The first half is the sink as a transition system over its atomic steps (the code
 between two awaits), with a record of what became of every accepted item. The second
 half is the class itself, whose methods and loops are shown to perform those steps.
 */
module Telemetry {

  datatype Kind = RequestEvent | ToolInvocation

  /** One accepted item; `id` is its place in the order of acceptance. */
  datatype Item = Item(id: nat, kind: Kind)

  /** A queue slot: an item, or the sentinel that asks the flusher to stop. */
  datatype Slot = Work(item: Item) | StopSentinel

  /** `wired` is false when no session factory was given. */
  datatype Config = Config(batchSize: nat, maxQueue: int, enabled: bool, wired: bool)

  /** Where the single flusher is. */
  datatype Phase = Collecting | Draining | Writing(last: bool) | Stopped

  /** How a batch write went wrong, if it did. */
  datatype Fault = NoFault | AtEvents | AtInvocations | AtClose

  datatype Stats = Stats(
    enqueuedEvents: nat, enqueuedInvocations: nat,
    droppedEvents: nat, droppedInvocations: nat,
    writtenEvents: nat, writtenInvocations: nat,
    writeFailures: nat, retriedBatches: nat)

  datatype Sink = Sink(
    queue: seq<Slot>,
    retry: seq<Item>,
    hand: seq<Item>,       // gathered by _collect so far
    inflight: seq<Item>,   // the batch being written
    phase: Phase,
    stats: Stats,
    stored: set<nat>,      // primary keys present in the two telemetry tables
    purged: set<nat>,      // primary keys the retention sweep has deleted
    accepted: seq<Item>,
    written: seq<Item>,    // batches whose write succeeded
    truncated: seq<Item>,  // cut off by the batch limit
    abandoned: seq<Item>)  // gathered, then dropped because the sentinel arrived

  datatype Action =
    | Record(kind: Kind)
    | AskStop
    | Take
    | Flush
    | Drain
    | Finish(fault: Fault)
    | Purge(ids: set<nat>)   // the retention sweep of another process

  const NO_STATS := Stats(0, 0, 0, 0, 0, 0, 0, 0)
  const EMPTY := Sink([], [], [], [], Collecting, NO_STATS, {}, {}, [], [], [], [])

  function Capacity(c: Config): (n: nat)
    ensures n >= 1
  {
    if c.maxQueue < 1 then 1 else c.maxQueue
  }

  function Works(queue: seq<Slot>): seq<Item> {
    if queue == [] then []
    else (if queue[0].Work? then [queue[0].item] else []) + Works(queue[1..])
  }

  function Count(k: Kind, items: seq<Item>): nat {
    if items == [] then 0 else (if items[0].kind == k then 1 else 0) + Count(k, items[1..])
  }

  function Ids(items: seq<Item>): set<nat> {
    set i | 0 <= i < |items| :: items[i].id
  }

  function OfKind(k: Kind, items: seq<Item>): set<nat> {
    set i | 0 <= i < |items| && items[i].kind == k :: items[i].id
  }

  function Cut(items: seq<Item>, n: nat): seq<Item> {
    if |items| <= n then items else items[..n]
  }

  function Rest(items: seq<Item>, n: nat): seq<Item> {
    if |items| <= n then [] else items[n..]
  }

  // ---------------------------------------------------------------------------
  // Steps
  // ---------------------------------------------------------------------------

  function RecordStep(c: Config, s: Sink, k: Kind): Sink {
    if !c.enabled then s
    else if |s.queue| < Capacity(c) then
      var item := Item(|s.accepted|, k);
      s.(queue := s.queue + [Work(item)], accepted := s.accepted + [item],
         stats := if k.RequestEvent?
                  then s.stats.(enqueuedEvents := s.stats.enqueuedEvents + 1)
                  else s.stats.(enqueuedInvocations := s.stats.enqueuedInvocations + 1))
    else
      s.(stats := if k.RequestEvent?
                  then s.stats.(droppedEvents := s.stats.droppedEvents + 1)
                  else s.stats.(droppedInvocations := s.stats.droppedInvocations + 1))
  }

  function AskStopStep(c: Config, s: Sink): Sink {
    if |s.queue| < Capacity(c) then s.(queue := s.queue + [StopSentinel]) else s
  }

  /** One `queue.get()` inside `_collect`. Taking the sentinel puts it back and makes
      `_collect` return None, which forgets whatever it had gathered. */
  function TakeStep(c: Config, s: Sink): Sink {
    if !s.phase.Collecting? || |s.hand| >= c.batchSize || s.queue == [] then s
    else match s.queue[0]
      case Work(item) => s.(queue := s.queue[1..], hand := s.hand + [item])
      case StopSentinel =>
        s.(queue := s.queue[1..] + [StopSentinel], hand := [], phase := Draining,
           abandoned := s.abandoned + s.hand)
  }

  /** The start of `_write`: merge the retry buffer, cut to one batch, clear the buffer. */
  function BeginWrite(c: Config, s: Sink, items: seq<Item>, last: bool): Sink {
    var merged := s.retry + items;
    var batch := Cut(merged, c.batchSize);
    var s' := s.(retry := [], hand := [], truncated := s.truncated + Rest(merged, c.batchSize));
    if batch == [] then s'.(phase := if last then Stopped else Collecting)
    else if !c.wired then
      CountWritten(s', batch).(phase := if last then Stopped else Collecting)
    else s'.(inflight := batch, phase := Writing(last))
  }

  function CountWritten(s: Sink, batch: seq<Item>): Sink {
    s.(written := s.written + batch,
       stats := s.stats.(writtenEvents := s.stats.writtenEvents + Count(RequestEvent, batch),
                         writtenInvocations := s.stats.writtenInvocations + Count(ToolInvocation, batch)))
  }

  /** A deadline or a full batch ends `_collect`; an empty result is not written. */
  function FlushStep(c: Config, s: Sink): Sink {
    if !s.phase.Collecting? || s.hand == [] then s else BeginWrite(c, s, s.hand, false)
  }

  /** What `_drain_available` takes and leaves: up to `n` items, every sentinel it meets. */
  function Drained(queue: seq<Slot>, n: nat): (r: (seq<Item>, seq<Slot>))
    decreases |queue|
  {
    if queue == [] || n == 0 then ([], queue)
    else match queue[0]
      case StopSentinel => Drained(queue[1..], n)
      case Work(item) => var r := Drained(queue[1..], n - 1); ([item] + r.0, r.1)
  }

  function DrainStep(c: Config, s: Sink): Sink {
    if !s.phase.Draining? then s
    else
      var r := Drained(s.queue, c.batchSize);
      BeginWrite(c, s.(queue := r.1), r.0, true)
  }

  /** The rows left by one attempt to store a batch, and whether the attempt succeeded.
      Each table is committed on its own, and a repeated primary key is refused. */
  function Store(stored: set<nat>, batch: seq<Item>, fault: Fault): (set<nat>, bool) {
    var events, invocations := OfKind(RequestEvent, batch), OfKind(ToolInvocation, batch);
    if events != {} && (fault.AtEvents? || events * stored != {}) then (stored, false)
    else
      var stored' := stored + events;
      if invocations != {} && (fault.AtEvents? || fault.AtInvocations? || invocations * stored' != {}) then (stored', false)
      else (stored' + invocations, !fault.AtClose?)
  }

  /** The end of `_write`. The buffer was cleared on the way in, so a failed batch is
      always kept again, however often it has failed before. */
  function FinishStep(s: Sink, fault: Fault): Sink {
    if !s.phase.Writing? then s
    else
      var r := Store(s.stored, s.inflight, fault);
      var s' := s.(stored := r.0, inflight := [], phase := if s.phase.last then Stopped else Collecting);
      if r.1 then CountWritten(s', s.inflight)
      else s'.(retry := s.inflight,
               stats := s.stats.(writeFailures := s.stats.writeFailures + 1,
                                 retriedBatches := s.stats.retriedBatches + 1))
  }

  function PurgeStep(s: Sink, ids: set<nat>): Sink {
    s.(stored := s.stored - ids, purged := s.purged + ids)
  }

  function Step(c: Config, s: Sink, a: Action): Sink {
    match a
    case Record(k) => RecordStep(c, s, k)
    case AskStop => AskStopStep(c, s)
    case Take => TakeStep(c, s)
    case Flush => FlushStep(c, s)
    case Drain => DrainStep(c, s)
    case Finish(fault) => FinishStep(s, fault)
    case Purge(ids) => PurgeStep(s, ids)
  }

  /** The state after any run from an empty sink. */
  function Replay(c: Config, trace: seq<Action>): Sink {
    if trace == [] then EMPTY
    else Step(c, Replay(c, trace[..|trace| - 1]), trace[|trace| - 1])
  }

  // ---------------------------------------------------------------------------
  // What every run keeps
  // ---------------------------------------------------------------------------

  /** Everything not lost, oldest first. */
  function Live(s: Sink): seq<Item> {
    s.written + (s.retry + (s.inflight + (s.hand + Works(s.queue))))
  }

  ghost predicate Increasing(items: seq<Item>) {
    forall i, j :: 0 <= i < j < |items| ==> items[i].id < items[j].id
  }

  /** Every accepted item is in exactly one place. */
  ghost predicate Conserved(s: Sink) {
    Balanced(s.accepted, Live(s), s.truncated, s.abandoned)
  }

  ghost predicate Balanced(accepted: seq<Item>, live: seq<Item>, truncated: seq<Item>, abandoned: seq<Item>) {
    multiset(accepted) == multiset(live) + multiset(truncated) + multiset(abandoned)
  }

  /** The surviving items keep their order of acceptance, each appearing once. */
  ghost predicate Ordered(s: Sink) {
    Faithful(s.accepted, Live(s))
  }

  ghost predicate Faithful(accepted: seq<Item>, live: seq<Item>) {
    && Increasing(live)
    && forall i :: 0 <= i < |live| ==> live[i].id < |accepted| && accepted[live[i].id] == live[i]
  }

  ghost predicate Bounded(c: Config, s: Sink) {
    && |s.queue| <= Capacity(c)
    && |s.retry| <= c.batchSize && |s.hand| <= c.batchSize && |s.inflight| <= c.batchSize
    && |s.truncated| + |s.retry| <= c.batchSize * s.stats.writeFailures
    && (s.phase.Writing? ==> c.wired && s.retry == [] && s.hand == [] && s.inflight != [])
    && (!s.phase.Writing? ==> s.inflight == [])
    && (!s.phase.Collecting? ==> s.hand == [])
  }

  /** The counters report what happened. */
  ghost predicate Counted(s: Sink) {
    && s.stats.enqueuedEvents == Count(RequestEvent, s.accepted)
    && s.stats.enqueuedInvocations == Count(ToolInvocation, s.accepted)
    && s.stats.writtenEvents == Count(RequestEvent, s.written)
    && s.stats.writtenInvocations == Count(ToolInvocation, s.written)
    && s.stats.writeFailures == s.stats.retriedBatches
  }

  lemma {:induction false} WorksAppend(a: seq<Slot>, b: seq<Slot>)
    ensures Works(a + b) == Works(a) + Works(b)
  {
    if a == [] {
      assert a + b == b;
    } else {
      WorksAppend(a[1..], b);
      var head := if a[0].Work? then [a[0].item] else [];
      assert (a + b)[0] == a[0] && (a + b)[1..] == a[1..] + b;
      assert Works(a + b) == head + (Works(a[1..]) + Works(b));
      assert head + (Works(a[1..]) + Works(b)) == (head + Works(a[1..])) + Works(b);
    }
  }

  lemma {:induction false} CountAppend(k: Kind, a: seq<Item>, b: seq<Item>)
    ensures Count(k, a + b) == Count(k, a) + Count(k, b)
  {
    if a == [] {
      assert a + b == b;
    } else {
      assert (a + b)[1..] == a[1..] + b;
      CountAppend(k, a[1..], b);
    }
  }

  lemma {:induction false} CountSplit(items: seq<Item>)
    ensures Count(RequestEvent, items) + Count(ToolInvocation, items) == |items|
  {
    if items != [] {
      CountSplit(items[1..]);
    }
  }

  lemma {:induction false} DrainedSplits(queue: seq<Slot>, n: nat)
    ensures var r := Drained(queue, n);
            Works(queue) == r.0 + Works(r.1) && |r.0| <= n && |r.1| <= |queue|
    decreases |queue|
  {
    if queue == [] || n == 0 {
      assert [] + Works(queue) == Works(queue);
    } else if queue[0].StopSentinel? {
      DrainedSplits(queue[1..], n);
      assert Works(queue) == Works(queue[1..]);
    } else {
      DrainedSplits(queue[1..], n - 1);
      DrainedWork(queue, n, Drained(queue[1..], n - 1));
    }
  }

  lemma DrainedWork(queue: seq<Slot>, n: nat, r: (seq<Item>, seq<Slot>))
    requires queue != [] && n > 0 && queue[0].Work? && r == Drained(queue[1..], n - 1)
    requires Works(queue[1..]) == r.0 + Works(r.1)
    ensures Drained(queue, n) == ([queue[0].item] + r.0, r.1)
    ensures Works(queue) == ([queue[0].item] + r.0) + Works(r.1)
  {
    Regroup([queue[0].item], r.0, Works(r.1));
  }

  lemma Regroup(a: seq<Item>, b: seq<Item>, c: seq<Item>)
    ensures a + (b + c) == (a + b) + c
  {
  }

  /** Cutting a middle stretch out of the live items keeps the rest in order, and
      moving the cut part to a loss column keeps the balance. */
  lemma CutKeepsOrder(accepted: seq<Item>, a: seq<Item>, m: seq<Item>, b: seq<Item>, n: nat)
    requires Faithful(accepted, a + (m + b))
    ensures Faithful(accepted, a + (Cut(m, n) + b))
  {
    var full, cut := a + (m + b), a + (Cut(m, n) + b);
    var gap := |m| - |Cut(m, n)|;
    assert forall i :: 0 <= i < |cut| ==>
      cut[i] == full[if i < |a| + |Cut(m, n)| then i else i + gap];
  }

  lemma CutAndRest(m: seq<Item>, n: nat)
    ensures Cut(m, n) + Rest(m, n) == m
    ensures |Cut(m, n)| <= n
    ensures |Rest(m, n)| == if |m| <= n then 0 else |m| - n
  {
  }

  lemma CutBalance(a: seq<Item>, m: seq<Item>, b: seq<Item>, n: nat)
    ensures multiset(a + (m + b)) == multiset(a + (Cut(m, n) + b)) + multiset(Rest(m, n))
  {
    CutAndRest(m, n);
    assert multiset(m) == multiset(Cut(m, n)) + multiset(Rest(m, n));
  }

  lemma AcceptKeeps(accepted: seq<Item>, live: seq<Item>, truncated: seq<Item>, abandoned: seq<Item>, k: Kind)
    requires Faithful(accepted, live) && Balanced(accepted, live, truncated, abandoned)
    ensures var item := Item(|accepted|, k);
            && Faithful(accepted + [item], live + [item])
            && Balanced(accepted + [item], live + [item], truncated, abandoned)
  {
    var item := Item(|accepted|, k);
    assert forall i :: 0 <= i < |live| ==> (live + [item])[i] == live[i];
  }

  // One lemma per step and per part of the invariant.

  ghost predicate Accounted(s: Sink) {
    Conserved(s) && Ordered(s)
  }

  lemma RecordLive(c: Config, s: Sink, k: Kind)
    requires c.enabled && |s.queue| < Capacity(c)
    ensures Live(RecordStep(c, s, k)) == Live(s) + [Item(|s.accepted|, k)]
  {
    var item := Item(|s.accepted|, k);
    WorksAppend(s.queue, [Work(item)]);
    assert [Work(item)][1..] == [];
    assert Works([Work(item)]) == [item];
  }

  lemma RecordAccounts(c: Config, s: Sink, k: Kind)
    requires Accounted(s)
    ensures Accounted(RecordStep(c, s, k))
  {
    if c.enabled && |s.queue| < Capacity(c) {
      var item := Item(|s.accepted|, k);
      RecordLive(c, s, k);
      AcceptKeeps(s.accepted, Live(s), s.truncated, s.abandoned, k);
    } else {
      assert Live(RecordStep(c, s, k)) == Live(s);
    }
  }

  lemma RecordCounts(c: Config, s: Sink, k: Kind)
    requires Counted(s)
    ensures Counted(RecordStep(c, s, k))
  {
    var item := Item(|s.accepted|, k);
    assert [item][1..] == [];
    CountAppend(RequestEvent, s.accepted, [item]);
    CountAppend(ToolInvocation, s.accepted, [item]);
  }

  lemma StopSlotInvisible(queue: seq<Slot>)
    ensures Works(queue + [StopSentinel]) == Works(queue)
  {
    WorksAppend(queue, [StopSentinel]);
    assert [StopSentinel][1..] == [];
    assert Works([StopSentinel]) == [];
  }

  lemma AskStopAccounts(c: Config, s: Sink)
    requires Accounted(s)
    ensures Accounted(AskStopStep(c, s))
  {
    StopSlotInvisible(s.queue);
    assert Live(AskStopStep(c, s)) == Live(s);
  }

  lemma AbandonAccounts(s: Sink)
    requires Accounted(s)
    ensures Accounted(s.(hand := [], abandoned := s.abandoned + s.hand))
  {
    var front, back := s.written + (s.retry + s.inflight), Works(s.queue);
    AbandonLive(s);
    CutKeepsOrder(s.accepted, front, s.hand, back, 0);
    CutBalance(front, s.hand, back, 0);
    assert Rest(s.hand, 0) == s.hand;
  }

  lemma AbandonLive(s: Sink)
    ensures var front, back := s.written + (s.retry + s.inflight), Works(s.queue);
            && Live(s) == front + (s.hand + back)
            && Live(s.(hand := [], abandoned := s.abandoned + s.hand)) == front + (Cut(s.hand, 0) + back)
  {
    var front, back := s.written + (s.retry + s.inflight), Works(s.queue);
    assert Cut(s.hand, 0) == [];
    assert s.written + (s.retry + (s.inflight + (s.hand + back))) == front + (s.hand + back);
    assert s.written + (s.retry + (s.inflight + ([] + back))) == front + ([] + back);
  }

  lemma TakeAccounts(c: Config, s: Sink)
    requires Accounted(s)
    ensures Accounted(TakeStep(c, s))
  {
    if s.phase.Collecting? && |s.hand| < c.batchSize && s.queue != [] {
      var s' := TakeStep(c, s);
      match s.queue[0] {
        case Work(item) =>
          assert Live(s') == Live(s);
        case StopSentinel =>
          StopSlotInvisible(s.queue[1..]);
          assert Works(s.queue) == Works(s.queue[1..]);
          AbandonAccounts(s);
          assert Live(s') == Live(s.(hand := [], abandoned := s.abandoned + s.hand));
      }
    }
  }

  lemma BeginWriteLive(c: Config, s: Sink, items: seq<Item>, last: bool)
    requires s.inflight == []
    ensures var s', back := BeginWrite(c, s, items, last), Works(s.queue);
            && Live(s.(hand := items)) == s.written + ((s.retry + items) + back)
            && Live(s') == s.written + (Cut(s.retry + items, c.batchSize) + back)
            && s'.accepted == s.accepted && s'.abandoned == s.abandoned
            && s'.truncated == s.truncated + Rest(s.retry + items, c.batchSize)
  {
    var s', batch, back := BeginWrite(c, s, items, last), Cut(s.retry + items, c.batchSize), Works(s.queue);
    assert s.retry + ([] + (items + back)) == (s.retry + items) + back;
    if batch == [] || c.wired {
      assert Live(s') == s.written + ([] + (s'.inflight + ([] + back)));
    } else {
      assert Live(s') == (s.written + batch) + ([] + ([] + ([] + back)));
    }
  }

  lemma BeginWriteAccounts(c: Config, s: Sink, items: seq<Item>, last: bool)
    requires s.inflight == []
    requires Accounted(s.(hand := items))
    ensures Accounted(BeginWrite(c, s, items, last))
  {
    var merged, back := s.retry + items, Works(s.queue);
    BeginWriteLive(c, s, items, last);
    CutKeepsOrder(s.accepted, s.written, merged, back, c.batchSize);
    CutBalance(s.written, merged, back, c.batchSize);
  }

  lemma BeginWriteBounds(c: Config, s: Sink, items: seq<Item>, last: bool)
    requires !s.phase.Writing? && |items| <= c.batchSize && Bounded(c, s.(hand := []))
    ensures Bounded(c, BeginWrite(c, s, items, last))
  {
    CutAndRest(s.retry + items, c.batchSize);
  }

  lemma CountWrittenCounts(s: Sink, batch: seq<Item>)
    requires Counted(s)
    ensures Counted(CountWritten(s, batch))
  {
    CountAppend(RequestEvent, s.written, batch);
    CountAppend(ToolInvocation, s.written, batch);
  }

  lemma BeginWriteCounts(c: Config, s: Sink, items: seq<Item>, last: bool)
    requires Counted(s)
    ensures Counted(BeginWrite(c, s, items, last))
  {
    var merged := s.retry + items;
    var s' := s.(retry := [], hand := [], truncated := s.truncated + Rest(merged, c.batchSize));
    CountWrittenCounts(s', Cut(merged, c.batchSize));
  }

  lemma DrainAccounts(c: Config, s: Sink)
    requires Accounted(s) && Bounded(c, s)
    ensures Accounted(DrainStep(c, s))
  {
    if s.phase.Draining? {
      var r := Drained(s.queue, c.batchSize);
      DrainedLive(c, s);
      BeginWriteAccounts(c, s.(queue := r.1), r.0, true);
    }
  }

  lemma DrainedLive(c: Config, s: Sink)
    requires Accounted(s) && Bounded(c, s) && s.phase.Draining?
    ensures var r := Drained(s.queue, c.batchSize);
            s.inflight == [] && Accounted(s.(queue := r.1).(hand := r.0))
  {
    var r := Drained(s.queue, c.batchSize);
    DrainedSplits(s.queue, c.batchSize);
    assert Live(s.(queue := r.1, hand := r.0)) == Live(s);
  }

  lemma DrainBounds(c: Config, s: Sink)
    requires Bounded(c, s)
    ensures Bounded(c, DrainStep(c, s))
  {
    if s.phase.Draining? {
      var r := Drained(s.queue, c.batchSize);
      DrainedSplits(s.queue, c.batchSize);
      BeginWriteBounds(c, s.(queue := r.1), r.0, true);
    }
  }

  lemma FinishLive(c: Config, s: Sink, fault: Fault)
    requires Bounded(c, s)
    ensures var s' := FinishStep(s, fault);
            && Live(s') == Live(s)
            && s'.accepted == s.accepted && s'.abandoned == s.abandoned && s'.truncated == s.truncated
  {
    var s', back := FinishStep(s, fault), s.hand + Works(s.queue);
    if s.phase.Writing? {
      assert Live(s) == s.written + ([] + (s.inflight + back));
      assert (s.written + s.inflight) + ([] + ([] + back)) == s.written + (s.inflight + ([] + back));
    }
  }

  lemma FinishAccounts(c: Config, s: Sink, fault: Fault)
    requires Accounted(s) && Bounded(c, s)
    ensures Accounted(FinishStep(s, fault))
  {
    FinishLive(c, s, fault);
  }

  lemma FinishBounds(c: Config, s: Sink, fault: Fault)
    requires Bounded(c, s)
    ensures Bounded(c, FinishStep(s, fault))
  {
    assert c.batchSize * (s.stats.writeFailures + 1) == c.batchSize * s.stats.writeFailures + c.batchSize;
  }

  lemma FinishCounts(s: Sink, fault: Fault)
    requires Counted(s)
    ensures Counted(FinishStep(s, fault))
  {
    if s.phase.Writing? {
      var r := Store(s.stored, s.inflight, fault);
      var s' := s.(stored := r.0, inflight := [], phase := if s.phase.last then Stopped else Collecting);
      CountWrittenCounts(s', s.inflight);
    }
  }

  lemma FlushAccounts(c: Config, s: Sink)
    requires Accounted(s) && Bounded(c, s)
    ensures Accounted(FlushStep(c, s))
  {
    if s.phase.Collecting? && s.hand != [] {
      assert s.(hand := s.hand) == s;
      BeginWriteAccounts(c, s, s.hand, false);
    }
  }

  lemma StepAccounts(c: Config, s: Sink, a: Action)
    requires Accounted(s) && Bounded(c, s)
    ensures Accounted(Step(c, s, a))
  {
    match a {
      case Record(k) => RecordAccounts(c, s, k); assert Step(c, s, a) == RecordStep(c, s, k);
      case AskStop => AskStopAccounts(c, s); assert Step(c, s, a) == AskStopStep(c, s);
      case Take => TakeAccounts(c, s); assert Step(c, s, a) == TakeStep(c, s);
      case Flush => FlushAccounts(c, s); assert Step(c, s, a) == FlushStep(c, s);
      case Drain => DrainAccounts(c, s); assert Step(c, s, a) == DrainStep(c, s);
      case Finish(fault) => FinishAccounts(c, s, fault); assert Step(c, s, a) == FinishStep(s, fault);
      case Purge(ids) => assert Live(Step(c, s, a)) == Live(s);
    }
  }

  lemma StepBounds(c: Config, s: Sink, a: Action)
    requires Bounded(c, s)
    ensures Bounded(c, Step(c, s, a))
  {
    match a
    case Flush =>
      if s.phase.Collecting? {
        BeginWriteBounds(c, s, s.hand, false);
      }
    case Drain => DrainBounds(c, s);
    case Finish(fault) => FinishBounds(c, s, fault);
    case _ =>
  }

  lemma StepCounts(c: Config, s: Sink, a: Action)
    requires Counted(s)
    ensures Counted(Step(c, s, a))
  {
    match a
    case Record(k) => RecordCounts(c, s, k);
    case Flush => BeginWriteCounts(c, s, s.hand, false);
    case Drain =>
      var r := Drained(s.queue, c.batchSize);
      BeginWriteCounts(c, s.(queue := r.1), r.0, true);
    case Finish(fault) => FinishCounts(s, fault);
    case _ =>
  }

  lemma {:induction false} RunBounds(c: Config, trace: seq<Action>)
    ensures Bounded(c, Replay(c, trace))
  {
    if trace != [] {
      RunBounds(c, trace[..|trace| - 1]);
      StepBounds(c, Replay(c, trace[..|trace| - 1]), trace[|trace| - 1]);
    }
  }

  lemma {:induction false} RunCounts(c: Config, trace: seq<Action>)
    ensures Counted(Replay(c, trace))
  {
    if trace != [] {
      RunCounts(c, trace[..|trace| - 1]);
      StepCounts(c, Replay(c, trace[..|trace| - 1]), trace[|trace| - 1]);
    }
  }

  lemma {:induction false} RunAccounts(c: Config, trace: seq<Action>)
    ensures Accounted(Replay(c, trace))
  {
    if trace != [] {
      RunAccounts(c, trace[..|trace| - 1]);
      RunBounds(c, trace[..|trace| - 1]);
      StepAccounts(c, Replay(c, trace[..|trace| - 1]), trace[|trace| - 1]);
    }
  }

  // ---------------------------------------------------------------------------
  // Accounting, bounds and order over every run
  // ---------------------------------------------------------------------------

  lemma CancelOne(m: multiset<Item>, n: multiset<Item>, x: Item)
    requires m + multiset{x} == n + multiset{x}
    ensures m == n
  {
    assert m == m + multiset{x} - multiset{x};
    assert n == n + multiset{x} - multiset{x};
  }

  lemma CountAround(k: Kind, a: seq<Item>, x: Item, b: seq<Item>)
    ensures Count(k, a + ([x] + b)) == Count(k, a + b) + if x.kind == k then 1 else 0
  {
    assert ([x] + b)[1..] == b;
    CountAppend(k, a, b);
    CountAppend(k, a, [x] + b);
  }

  lemma CutOut(items: seq<Item>, x: Item) returns (p: seq<Item>, q: seq<Item>)
    requires x in items
    ensures items == p + ([x] + q)
    ensures multiset(items) == multiset(p + q) + multiset{x}
  {
    var j :| 0 <= j < |items| && items[j] == x;
    p, q := items[..j], items[j + 1..];
    assert items == p + ([x] + q);
  }

  lemma {:induction false} CountOfPermutation(k: Kind, a: seq<Item>, b: seq<Item>)
    requires multiset(a) == multiset(b)
    ensures Count(k, a) == Count(k, b)
    decreases |a|
  {
    if a == [] {
      assert |multiset(b)| == 0;
    } else {
      var x := a[0];
      assert x in multiset(a) && x in multiset(b);
      var p, q := CutOut(a, x);
      var p', q' := CutOut(b, x);
      CancelOne(multiset(p + q), multiset(p' + q'), x);
      CountOfPermutation(k, p + q, p' + q');
      CountAround(k, p, x, q);
      CountAround(k, p', x, q');
    }
  }

  function LostOrLive(k: Kind, s: Sink): nat {
    Count(k, s.written) + Count(k, s.retry) + Count(k, s.inflight) + Count(k, s.hand)
    + Count(k, Works(s.queue)) + Count(k, s.truncated) + Count(k, s.abandoned)
  }

  lemma CountLive(k: Kind, s: Sink)
    ensures Count(k, Live(s)) == Count(k, s.written) + Count(k, s.retry) + Count(k, s.inflight)
                               + Count(k, s.hand) + Count(k, Works(s.queue))
  {
    CountAppend(k, s.hand, Works(s.queue));
    CountAppend(k, s.inflight, s.hand + Works(s.queue));
    CountAppend(k, s.retry, s.inflight + (s.hand + Works(s.queue)));
    CountAppend(k, s.written, s.retry + (s.inflight + (s.hand + Works(s.queue))));
  }

  lemma CountBalanced(k: Kind, accepted: seq<Item>, live: seq<Item>, truncated: seq<Item>, abandoned: seq<Item>)
    requires Balanced(accepted, live, truncated, abandoned)
    ensures Count(k, accepted) == Count(k, live) + Count(k, truncated) + Count(k, abandoned)
  {
    CountOfPermutation(k, accepted, live + (truncated + abandoned));
    CountAppend(k, live, truncated + abandoned);
    CountAppend(k, truncated, abandoned);
  }

  /** In every run, each kind of accepted item is exactly written, waiting or discarded,
      and the health counters report the accepted and written numbers. */
  lemma ExactAccounting(c: Config, trace: seq<Action>, k: Kind)
    ensures var s := Replay(c, trace);
            && LostOrLive(k, s) == (if k.RequestEvent? then s.stats.enqueuedEvents else s.stats.enqueuedInvocations)
            && Count(k, s.written) == (if k.RequestEvent? then s.stats.writtenEvents else s.stats.writtenInvocations)
  {
    RunAccounts(c, trace);
    RunCounts(c, trace);
    AccountingOf(Replay(c, trace), k);
  }

  lemma AccountingOf(s: Sink, k: Kind)
    requires Conserved(s)
    ensures LostOrLive(k, s) == Count(k, s.accepted)
  {
    CountLive(k, s);
    CountBalanced(k, s.accepted, Live(s), s.truncated, s.abandoned);
  }

  /** Queue and buffer stay bounded, and truncation loses at most one batch per failed
      write, hence nothing at all while writes succeed. */
  lemma LossesAreBounded(c: Config, trace: seq<Action>)
    ensures var s := Replay(c, trace);
            && |s.queue| <= Capacity(c) && |s.retry| <= c.batchSize
            && |s.truncated| <= c.batchSize * s.stats.writeFailures
            && (s.stats.writeFailures == 0 ==> s.truncated == [])
  {
    RunBounds(c, trace);
  }

  /** Items are written in their order of acceptance and none is counted twice. */
  lemma WrittenInOrder(c: Config, trace: seq<Action>)
    ensures Faithful(Replay(c, trace).accepted, Replay(c, trace).written)
  {
    RunAccounts(c, trace);
    var s := Replay(c, trace);
    assert s.written == Live(s)[..|s.written|];
    assert forall i :: 0 <= i < |s.written| ==> s.written[i] == Live(s)[i];
  }

  /** Items are discarded in two places only: by the batch limit when a failed batch is
      being retried, and by the sentinel when part of a batch had been gathered. */
  lemma OnlyTwoDiscards(c: Config, s: Sink, a: Action)
    requires Bounded(c, s)
    ensures var s' := Step(c, s, a);
            && (s'.truncated != s.truncated ==> (a.Flush? || a.Drain?) && s.retry != [])
            && (s'.abandoned != s.abandoned ==> a.Take? && s.hand != [] && s.queue[0] == StopSentinel)
  {
    if a.Drain? && s.phase.Draining? {
      DrainedSplits(s.queue, c.batchSize);
    }
  }

  // ---------------------------------------------------------------------------
  // Every record counted, every failure counted
  // ---------------------------------------------------------------------------

  /** How often an item of this kind was recorded. */
  function Records(trace: seq<Action>, k: Kind): nat {
    if trace == [] then 0
    else Records(trace[..|trace| - 1], k) + if trace[|trace| - 1] == Record(k) then 1 else 0
  }

  function Enqueued(s: Stats, k: Kind): nat {
    if k.RequestEvent? then s.enqueuedEvents else s.enqueuedInvocations
  }

  function Dropped(s: Stats, k: Kind): nat {
    if k.RequestEvent? then s.droppedEvents else s.droppedInvocations
  }

  /** Nothing vanishes uncounted at the door: for each kind, the accepted and the dropped items
      are together the recorded ones; a disabled sink counts nothing. */
  lemma {:induction false} EveryRecordIsCounted(c: Config, trace: seq<Action>, k: Kind)
    ensures var s := Replay(c, trace).stats;
            if c.enabled then Enqueued(s, k) + Dropped(s, k) == Records(trace, k)
            else Enqueued(s, k) == 0 && Dropped(s, k) == 0
  {
    if trace != [] {
      EveryRecordIsCounted(c, trace[..|trace| - 1], k);
      DoorStep(c, Replay(c, trace[..|trace| - 1]), trace[|trace| - 1], k);
    }
  }

  lemma DoorStep(c: Config, s: Sink, a: Action, k: Kind)
    ensures var t := Step(c, s, a).stats;
            && Enqueued(t, k) + Dropped(t, k)
               == Enqueued(s.stats, k) + Dropped(s.stats, k) + (if c.enabled && a == Record(k) then 1 else 0)
            && (!c.enabled ==> Enqueued(t, k) == Enqueued(s.stats, k) && Dropped(t, k) == Dropped(s.stats, k))
  {
  }

  /** An item gets in exactly while the queue, of at least one place, has room; it is the next
      in order and of the recorded kind. */
  lemma AcceptsExactlyWhenRoom(c: Config, s: Sink, k: Kind)
    ensures var s', size := Step(c, s, Record(k)), if c.maxQueue > 1 then c.maxQueue else 1;
            if c.enabled && |s.queue| < size
            then s'.accepted == s.accepted + [Item(|s.accepted|, k)] && s'.queue == s.queue + [Work(Item(|s.accepted|, k))]
            else s'.accepted == s.accepted && s'.queue == s.queue
  {
  }

  /** How many writes of the run came back without having written anything. */
  ghost function FailedWrites(c: Config, trace: seq<Action>): nat {
    if trace == [] then 0
    else
      var most := trace[..|trace| - 1];
      FailedWrites(c, most)
      + if Replay(c, most).phase.Writing? && trace[|trace| - 1].Finish? && Replay(c, trace).written == Replay(c, most).written
        then 1 else 0
  }

  lemma {:induction false} FailuresAreCounted(c: Config, trace: seq<Action>)
    ensures Replay(c, trace).stats.writeFailures == FailedWrites(c, trace)
  {
    if trace != [] {
      var most := trace[..|trace| - 1];
      FailuresAreCounted(c, most);
      RunBounds(c, most);
      FailureStep(c, Replay(c, most), trace[|trace| - 1]);
    }
  }

  lemma FailureStep(c: Config, s: Sink, a: Action)
    requires Bounded(c, s)
    ensures var s' := Step(c, s, a);
            s'.stats.writeFailures == s.stats.writeFailures
              + if s.phase.Writing? && a.Finish? && s'.written == s.written then 1 else 0
  {
    if s.phase.Writing? && a.Finish? {
      assert |s.written + s.inflight| > |s.written|;
    }
  }

  /** The flusher is stopping only after somebody asked it to. */
  lemma {:induction false} StopsOnlyWhenAsked(c: Config, trace: seq<Action>)
    ensures var s := Replay(c, trace);
            StopSentinel in s.queue || s.phase.Draining? || s.phase.Stopped? || s.phase == Writing(true) ==> AskStop in trace
  {
    if trace != [] {
      var most, a := trace[..|trace| - 1], trace[|trace| - 1];
      StopsOnlyWhenAsked(c, most);
      assert trace == most + [a];
      if AskStop !in trace {
        AskedStep(c, Replay(c, most), a);
      }
    }
  }

  lemma AskedStep(c: Config, s: Sink, a: Action)
    requires !(StopSentinel in s.queue || s.phase.Draining? || s.phase.Stopped? || s.phase == Writing(true)) && !a.AskStop?
    ensures var s' := Step(c, s, a);
            !(StopSentinel in s'.queue || s'.phase.Draining? || s'.phase.Stopped? || s'.phase == Writing(true))
  {
    if a.Take? && s.queue != [] {
      assert s.queue[0] in s.queue;
      assert forall x :: x in s.queue[1..] ==> x in s.queue;
    }
  }

  // ---------------------------------------------------------------------------
  // Half-committed batches
  // ---------------------------------------------------------------------------

  /** The items of a failed batch, waiting to be retried or being retried. */
  function Kept(s: Sink): seq<Item> {
    s.retry + s.inflight
  }

  /** A kept item is already stored. */
  ghost predicate Poisoned(c: Config, s: Sink) {
    c.wired && Ids(Kept(s)) * s.stored != {}
  }

  /** The tables hold the rows the counters call written, less those purged. */
  ghost predicate Healthy(c: Config, s: Sink) {
    if c.wired then Ids(s.written) - s.purged <= s.stored <= Ids(s.written) else s.stored == {}
  }

  lemma IdsSplit(items: seq<Item>)
    ensures Ids(items) == OfKind(RequestEvent, items) + OfKind(ToolInvocation, items)
  {
    forall x | x in Ids(items)
      ensures x in OfKind(RequestEvent, items) + OfKind(ToolInvocation, items)
    {
      var i :| 0 <= i < |items| && items[i].id == x;
      assert items[i].kind == RequestEvent || items[i].kind == ToolInvocation;
    }
  }

  lemma IdsAppend(a: seq<Item>, b: seq<Item>)
    ensures Ids(a + b) == Ids(a) + Ids(b)
  {
    var ab := a + b;
    forall x | x in Ids(a) ensures x in Ids(ab) {
      var i :| 0 <= i < |a| && a[i].id == x;
      assert ab[i].id == x;
    }
    forall x | x in Ids(b) ensures x in Ids(ab) {
      var i :| 0 <= i < |b| && b[i].id == x;
      assert ab[|a| + i].id == x;
    }
  }

  /** Storing a batch that holds a stored row fails, whatever else happens. */
  lemma StoredRowsRefuse(stored: set<nat>, batch: seq<Item>, fault: Fault)
    requires Ids(batch) * stored != {}
    ensures !Store(stored, batch, fault).1 && stored <= Store(stored, batch, fault).0
  {
    IdsSplit(batch);
    var events, invocations := OfKind(RequestEvent, batch), OfKind(ToolInvocation, batch);
    var x :| x in Ids(batch) && x in stored;
    if x in events {
      assert x in events * stored;
    } else {
      assert x in invocations * (stored + events);
    }
  }

  /** A kept, stored row `x` stays both through any step that does not purge it. */
  lemma BlockedStep(c: Config, s: Sink, a: Action, x: nat)
    requires c.wired && Bounded(c, s) && x in Ids(Kept(s)) && x in s.stored
    requires a.Purge? ==> x !in a.ids
    ensures var s' := Step(c, s, a);
            x in Ids(Kept(s')) && x in s'.stored && s'.written == s.written
  {
    IdsAppend(s.retry, s.inflight);
    match a {
      case Flush => if s.phase.Collecting? { BlockedBegin(c, s, s.hand, false, x); }
      case Drain =>
        if s.phase.Draining? {
          var r := Drained(s.queue, c.batchSize);
          BlockedBegin(c, s.(queue := r.1), r.0, true, x);
        }
      case Finish(fault) =>
        if s.phase.Writing? {
          assert x in Ids(s.inflight) * s.stored;
          StoredRowsRefuse(s.stored, s.inflight, fault);
          assert Kept(FinishStep(s, fault)) == s.inflight;
        }
      case _ =>
    }
  }

  lemma BlockedBegin(c: Config, s: Sink, items: seq<Item>, last: bool, x: nat)
    requires c.wired && s.inflight == [] && |s.retry| <= c.batchSize && x in Ids(s.retry)
    ensures x in Ids(Kept(BeginWrite(c, s, items, last))) && BeginWrite(c, s, items, last).written == s.written
  {
    var batch := Cut(s.retry + items, c.batchSize);
    assert s.retry == batch[..|s.retry|];
    assert batch == s.retry + batch[|s.retry|..];
    IdsAppend(s.retry, batch[|s.retry|..]);
    assert [] + batch == batch;
  }

  lemma {:induction false} ReplayAppend(c: Config, trace: seq<Action>, a: Action)
    ensures Replay(c, trace + [a]) == Step(c, Replay(c, trace), a)
  {
    assert (trace + [a])[..|trace|] == trace;
  }

  /** While one kept row is stored and not purged, nothing is written, in every continuation:
      every later batch holds that row and is refused. */
  lemma {:induction false} StuckUntilPurged(c: Config, trace: seq<Action>, more: seq<Action>, x: nat)
    requires c.wired && x in Ids(Kept(Replay(c, trace))) && x in Replay(c, trace).stored
    requires forall i :: 0 <= i < |more| && more[i].Purge? ==> x !in more[i].ids
    ensures var s := Replay(c, trace + more);
            x in Ids(Kept(s)) && x in s.stored && s.written == Replay(c, trace).written
  {
    if more == [] {
      assert trace + more == trace;
    } else {
      var most, a := more[..|more| - 1], more[|more| - 1];
      StuckUntilPurged(c, trace, most, x);
      RunBounds(c, trace + most);
      BlockedStep(c, Replay(c, trace + most), a, x);
      ReplayAppend(c, trace + most, a);
      assert trace + most + [a] == trace + more;
    }
  }

  /** A batch is refused by the tables exactly when it holds a stored row. */
  lemma RefusedExactlyWhen(c: Config, s: Sink)
    requires Accounted(s)
    ensures Store(s.stored, s.inflight, NoFault).1 <==> Ids(s.inflight) * s.stored == {}
  {
    ApartFromWritten(c, s);
    IdsSplit(s.inflight);
    if Ids(s.inflight) * s.stored != {} {
      StoredRowsRefuse(s.stored, s.inflight, NoFault);
    } else {
      var events, invocations := OfKind(RequestEvent, s.inflight), OfKind(ToolInvocation, s.inflight);
      assert events * s.stored == {} && invocations * (s.stored + events) == {};
    }
  }

  /** A write that commits some rows and then fails. */
  predicate CommitsThenFails(s: Sink, a: Action) {
    && s.phase.Writing? && a.Finish?
    && (|| a.fault.AtClose?
        || (a.fault.AtInvocations? && OfKind(RequestEvent, s.inflight) != {} && OfKind(ToolInvocation, s.inflight) != {}))
  }

  /** The ids of the parts of an ordered whole are apart. */
  lemma ApartFromWritten(c: Config, s: Sink)
    requires Accounted(s)
    ensures Ids(s.written) !! Ids(Kept(s))
    ensures OfKind(RequestEvent, s.inflight) !! OfKind(ToolInvocation, s.inflight)
  {
    var live, w := Live(s), |s.written|;
    var kept := Kept(s);
    assert forall i :: 0 <= i < w ==> live[i] == s.written[i];
    assert live == s.written + (kept + (s.hand + Works(s.queue)));
    assert forall i :: 0 <= i < |kept| ==> live[w + i] == kept[i];
    assert forall i :: 0 <= i < |s.inflight| ==> live[w + |s.retry| + i] == s.inflight[i];
  }

  /** From a state whose tables match the counters, one step either keeps them matching
      or poisons the sink, and it poisons exactly when a write commits and then fails. */
  lemma PoisonedExactlyBy(c: Config, s: Sink, a: Action)
    requires Accounted(s) && Bounded(c, s) && Healthy(c, s)
    ensures var s' := Step(c, s, a);
            && (Poisoned(c, s') <==> CommitsThenFails(s, a))
            && (!CommitsThenFails(s, a) ==> Healthy(c, s'))
  {
    ApartFromWritten(c, s);
    IdsAppend(s.retry, s.inflight);
    var s' := Step(c, s, a);
    match a {
      case Flush => 
        if s.phase.Collecting? && s.hand != [] {
          StepAccounts(c, s, a);
          ApartFromWritten(c, s');
          BeginIds(c, s, s.hand, false);
        }
      case Drain => 
        if s.phase.Draining? {
          var r := Drained(s.queue, c.batchSize);
          StepAccounts(c, s, a);
          ApartFromWritten(c, s');
          BeginIds(c, s.(queue := r.1), r.0, true);
        }
      case Finish(fault) => if s.phase.Writing? { FinishPoison(c, s, fault); }
      case _ =>
    }
  }

  lemma BeginIds(c: Config, s: Sink, items: seq<Item>, last: bool)
    requires Healthy(c, s)
    ensures Healthy(c, BeginWrite(c, s, items, last))
  {
  }

  lemma FinishPoison(c: Config, s: Sink, fault: Fault)
    requires c.wired && s.phase.Writing? && s.retry == [] && s.inflight != [] && Healthy(c, s)
    requires Ids(s.written) !! Ids(s.inflight)
    requires OfKind(RequestEvent, s.inflight) !! OfKind(ToolInvocation, s.inflight)
    ensures var s' := FinishStep(s, fault);
            && (Poisoned(c, s') <==> CommitsThenFails(s, Finish(fault)))
            && (!CommitsThenFails(s, Finish(fault)) ==> Healthy(c, s'))
  {
    var s' := FinishStep(s, fault);
    IdsSplit(s.inflight);
    IdsAppend(s.written, s.inflight);
    assert s.inflight[0].id in Ids(s.inflight);
    assert Kept(s') == s'.retry;
    var events, invocations := OfKind(RequestEvent, s.inflight), OfKind(ToolInvocation, s.inflight);
    assert events * s.stored == {} && invocations * (s.stored + events) == {};
    if CommitsThenFails(s, Finish(fault)) {
      if fault.AtClose? {
        assert s'.retry == s.inflight;
        assert s.inflight[0].id in Ids(Kept(s')) * s'.stored;
      } else {
        assert s'.stored * Ids(s.inflight) == events;
      }
    }
  }

  /** The rows a write leaves in the tables although it fails. */
  function LeftBehind(s: Sink, a: Action): set<nat> {
    if s.phase.Writing? && a.Finish? && !Store(s.stored, s.inflight, a.fault).1
    then Store(s.stored, s.inflight, a.fault).0 - s.stored else {}
  }

  /** Over a run: the rows left behind by failed writes and neither purged since nor made
      good by a later success. */
  ghost function Residue(c: Config, trace: seq<Action>): set<nat> {
    if trace == [] then {}
    else
      var most, a := trace[..|trace| - 1], trace[|trace| - 1];
      var s := Replay(c, most);
      match a
      case Purge(ids) => Residue(c, most) - ids
      case Finish(fault) =>
        if s.phase.Writing? && Store(s.stored, s.inflight, fault).1 then {}
        else Residue(c, most) + LeftBehind(s, a)
      case _ => Residue(c, most)
  }

  /** Stored rows are written or kept ones; written ones are stored unless purged. */
  ghost predicate Located(s: Sink) {
    Ids(s.written) - s.purged <= s.stored <= Ids(s.written) + Ids(Kept(s))
  }

  /** What is still to come has not been stored. */
  lemma FreshIds(s: Sink)
    requires Accounted(s)
    ensures Ids(s.written) + Ids(Kept(s)) !! Ids(s.hand + Works(s.queue))
  {
    var live, known, coming := Live(s), s.written + Kept(s), s.hand + Works(s.queue);
    assert live == known + coming;
    IdsAppend(s.written, Kept(s));
    assert forall i :: 0 <= i < |known| ==> live[i] == known[i];
    assert forall i :: 0 <= i < |coming| ==> live[|known| + i] == coming[i];
  }

  /** Beginning a write keeps what was stored and only adds fresh items to the kept ones. */
  lemma BeginResidue(c: Config, s: Sink, items: seq<Item>, last: bool)
    requires c.wired && s.inflight == [] && |s.retry| <= c.batchSize && Located(s)
    requires Ids(s.written) + Ids(s.retry) !! Ids(items)
    ensures var s' := BeginWrite(c, s, items, last);
            Located(s') && s'.stored == s.stored && Ids(Kept(s')) * s'.stored == Ids(Kept(s)) * s.stored
  {
    var s' := BeginWrite(c, s, items, last);
    var more := KeptByBegin(c, s, items, last);
    assert Ids(Kept(s)) == Ids(s.retry) by { assert Kept(s) == s.retry; }
    assert s'.stored == s.stored && s'.written == s.written && s'.purged == s.purged;
    assert more * s.stored == {};
  }

  lemma KeptByBegin(c: Config, s: Sink, items: seq<Item>, last: bool) returns (more: set<nat>)
    requires c.wired && s.inflight == [] && |s.retry| <= c.batchSize
    ensures Ids(Kept(BeginWrite(c, s, items, last))) == Ids(s.retry) + more && more <= Ids(items)
  {
    var batch := Cut(s.retry + items, c.batchSize);
    var rest := batch[|s.retry|..];
    assert batch == s.retry + rest && rest <= items;
    BatchIsKept(c, s, items, last);
    IdsAppend(s.retry, rest);
    more := Ids(rest);
    PrefixIds(rest, items);
  }

  lemma BatchIsKept(c: Config, s: Sink, items: seq<Item>, last: bool)
    requires c.wired && s.inflight == []
    ensures Kept(BeginWrite(c, s, items, last)) == Cut(s.retry + items, c.batchSize)
  {
    var batch := Cut(s.retry + items, c.batchSize);
    assert [] + batch == batch;
  }

  lemma PrefixIds(a: seq<Item>, b: seq<Item>)
    requires a <= b
    ensures Ids(a) <= Ids(b)
  {
    forall x | x in Ids(a) ensures x in Ids(b) {
      var i :| 0 <= i < |a| && a[i].id == x;
      assert b[i] == a[i];
    }
  }

  lemma DrainedAreQueued(queue: seq<Slot>, n: nat)
    ensures Ids(Drained(queue, n).0) <= Ids(Works(queue))
  {
    var r := Drained(queue, n);
    DrainedSplits(queue, n);
    IdsAppend(r.0, Works(r.1));
  }

  lemma ResidueStep(c: Config, s: Sink, a: Action)
    requires c.wired && Accounted(s) && Bounded(c, s) && Located(s)
    ensures var s', rest := Step(c, s, a), Ids(Kept(s)) * s.stored;
            && Located(s')
            && Ids(Kept(s')) * s'.stored ==
               (if a.Purge? then rest - a.ids
                else if a.Finish? && s.phase.Writing? && Store(s.stored, s.inflight, a.fault).1 then {}
                else rest + LeftBehind(s, a))
  {
    match a {
      case Flush => if s.phase.Collecting? && s.hand != [] { FlushResidue(c, s); }
      case Drain => if s.phase.Draining? { DrainResidue(c, s); }
      case Finish(fault) => if s.phase.Writing? { FinishResidue(c, s, fault); }
      case _ =>
    }
  }

  lemma FlushResidue(c: Config, s: Sink)
    requires c.wired && Accounted(s) && Bounded(c, s) && Located(s) && s.phase.Collecting? && s.hand != []
    ensures var s' := FlushStep(c, s); Located(s') && Ids(Kept(s')) * s'.stored == Ids(Kept(s)) * s.stored
  {
    FreshIds(s);
    IdsAppend(s.hand, Works(s.queue));
    IdsAppend(s.retry, s.inflight);
    BeginResidue(c, s, s.hand, false);
  }

  lemma DrainResidue(c: Config, s: Sink)
    requires c.wired && Accounted(s) && Bounded(c, s) && Located(s) && s.phase.Draining?
    ensures var s' := DrainStep(c, s); Located(s') && Ids(Kept(s')) * s'.stored == Ids(Kept(s)) * s.stored
  {
    var r := Drained(s.queue, c.batchSize);
    FreshIds(s);
    IdsAppend(s.hand, Works(s.queue));
    IdsAppend(s.retry, s.inflight);
    DrainedAreQueued(s.queue, c.batchSize);
    BeginResidue(c, s.(queue := r.1), r.0, true);
  }

  lemma FinishResidue(c: Config, s: Sink, fault: Fault)
    requires c.wired && s.phase.Writing? && s.retry == [] && Located(s)
    ensures var s', rest := FinishStep(s, fault), Ids(Kept(s)) * s.stored;
            && Located(s')
            && Ids(Kept(s')) * s'.stored ==
               if Store(s.stored, s.inflight, fault).1 then {} else rest + LeftBehind(s, Finish(fault))
  {
    var s' := FinishStep(s, fault);
    IdsSplit(s.inflight);
    IdsAppend(s.written, s.inflight);
    assert Kept(s) == s.inflight;
    if Store(s.stored, s.inflight, fault).1 {
      assert Kept(s') == [];
    } else {
      assert Kept(s') == s.inflight;
      assert s'.stored - s.stored <= Ids(s.inflight);
    }
  }

  lemma {:induction false} ResidueIsStored(c: Config, trace: seq<Action>)
    requires c.wired
    ensures var s := Replay(c, trace); Located(s) && Ids(Kept(s)) * s.stored == Residue(c, trace)
  {
    if trace != [] {
      var most, a := trace[..|trace| - 1], trace[|trace| - 1];
      ResidueIsStored(c, most);
      RunBounds(c, most);
      RunAccounts(c, most);
      ResidueStep(c, Replay(c, most), a);
    }
  }

  /** Over whole runs with purges: the sink is stuck exactly while a row left behind by a
      failed write is still stored; otherwise the tables hold what the counters report, less
      what was purged, and a write without a fault of its own succeeds. */
  lemma StuckExactlyWhen(c: Config, trace: seq<Action>)
    requires c.wired
    ensures var s := Replay(c, trace);
            && (Poisoned(c, s) <==> Residue(c, trace) != {})
            && (Residue(c, trace) == {} ==> Healthy(c, s) && Store(s.stored, s.inflight, NoFault).1)
  {
    var s := Replay(c, trace);
    ResidueIsStored(c, trace);
    RunAccounts(c, trace);
    RefusedExactlyWhen(c, s);
    IdsAppend(s.retry, s.inflight);
    assert Ids(s.inflight) <= Ids(Kept(s));
    if Residue(c, trace) == {} {
      forall x | x in s.stored ensures x in Ids(s.written) {
        assert x !in Ids(Kept(s)) * s.stored;
      }
    }
  }

  /** A flush does write: in every run, unless a row left behind is in the way, a faultless
      write of what was gathered adds exactly the kept and the gathered items, in order, up to
      the batch size, and leaves nothing kept. Without storage it counts them all the same. */
  lemma FlushWrites(c: Config, trace: seq<Action>)
    ensures var s := Replay(c, trace);
            var all, s1 := s.retry + s.hand, Step(c, s, Flush);
            var batch := if |all| <= c.batchSize then all else all[..c.batchSize];
            s.phase.Collecting? && s.hand != [] && Residue(c, trace) == {} ==>
              var s2 := if c.wired then Step(c, s1, Finish(NoFault)) else s1;
              s2.written == s.written + batch && s2.retry == [] && s2.hand == [] && s2.inflight == [] && s2.phase.Collecting?
  {
    var s := Replay(c, trace);
    RunBounds(c, trace);
    if s.phase.Collecting? && s.hand != [] && Residue(c, trace) == {} {
      if c.wired {
        RunAccounts(c, trace);
        ResidueIsStored(c, trace);
        FlushBegins(c, s);
      } else {
        assert Cut(s.retry + s.hand, c.batchSize) != [];
      }
    }
  }

  lemma FlushBegins(c: Config, s: Sink)
    requires c.wired && Accounted(s) && Bounded(c, s) && Located(s) && s.phase.Collecting? && s.hand != []
    requires Ids(Kept(s)) * s.stored == {}
    ensures var s1 := FlushStep(c, s);
            && s1.phase == Writing(false) && s1.inflight == Cut(s.retry + s.hand, c.batchSize)
            && s1.retry == [] && s1.hand == [] && s1.written == s.written
            && Store(s1.stored, s1.inflight, NoFault).1
  {
    FlushShape(c, s);
    FlushResidue(c, s);
    FlushAccounts(c, s);
    BatchAccepted(c, FlushStep(c, s));
  }

  lemma FlushShape(c: Config, s: Sink)
    requires c.wired && Bounded(c, s) && s.phase.Collecting? && s.hand != []
    ensures var s1 := FlushStep(c, s);
            && s1.phase == Writing(false) && s1.inflight == Cut(s.retry + s.hand, c.batchSize)
            && s1.retry == [] && s1.hand == [] && s1.written == s.written
  {
    assert |s.hand| <= c.batchSize;
    assert Cut(s.retry + s.hand, c.batchSize) != [];
  }

  lemma BatchAccepted(c: Config, s: Sink)
    requires Accounted(s) && s.retry == [] && Ids(Kept(s)) * s.stored == {}
    ensures Store(s.stored, s.inflight, NoFault).1
  {
    assert Kept(s) == s.inflight;
    RefusedExactlyWhen(c, s);
  }

  /** Some write of the run committed rows and then failed. */
  ghost predicate HalfCommitted(c: Config, trace: seq<Action>) {
    trace != [] &&
    var most := trace[..|trace| - 1];
    HalfCommitted(c, most) || CommitsThenFails(Replay(c, most), trace[|trace| - 1])
  }

  /** Without purges it is stuck for good, exactly when some write committed rows and then
      failed, and otherwise the tables hold exactly what the counters report. */
  lemma {:induction false} StuckForGood(c: Config, trace: seq<Action>)
    requires c.wired && forall i :: 0 <= i < |trace| ==> !trace[i].Purge?
    ensures var s := Replay(c, trace);
            && s.purged == {}
            && (Poisoned(c, s) <==> HalfCommitted(c, trace))
            && (!HalfCommitted(c, trace) ==> s.stored == Ids(s.written))
  {
    if trace != [] {
      var most, a := trace[..|trace| - 1], trace[|trace| - 1];
      var s := Replay(c, most);
      StuckForGood(c, most);
      RunBounds(c, most);
      RunAccounts(c, most);
      if HalfCommitted(c, most) {
        var x :| x in Ids(Kept(s)) * s.stored;
        BlockedStep(c, s, a, x);
        assert x in Ids(Kept(Step(c, s, a))) * Step(c, s, a).stored;
      } else {
        PoisonedExactlyBy(c, s, a);
      }
    }
  }

  // ---------------------------------------------------------------------------
  // Shutdown
  // ---------------------------------------------------------------------------

  /** The last write of a stopping flusher takes one batch. It leaves nothing unwritten
      exactly when the retry buffer and the queued items fit one batch together and the
      write succeeds; everything beyond that stays behind or is cut off. */
  lemma ShutdownFlushesExactly(c: Config, s: Sink, fault: Fault)
    requires Bounded(c, s) && s.phase.Draining? && c.wired
    requires s.retry + Works(s.queue) != []
    ensures var s' := FinishStep(DrainStep(c, s), fault);
            var all := s.retry + Works(s.queue);
            s'.written == s.written + all <==>
              |all| <= c.batchSize && Store(s.stored, all, fault).1
  {
    DrainedSplits(s.queue, c.batchSize);
    var r := Drained(s.queue, c.batchSize);
    var all := s.retry + Works(s.queue);
    var merged := s.retry + r.0;
    var s1 := DrainStep(c, s);
    var s' := FinishStep(s1, fault);
    assert all == merged + Works(r.1);
    CutAndRest(merged, c.batchSize);
    if |all| <= c.batchSize {
      DrainedLeavesNone(s.queue, c.batchSize);
      assert Works(r.1) == [] && merged == all;
    }
    assert |s'.written| <= |s.written| + c.batchSize;
  }

  lemma {:induction false} DrainedLeavesNone(queue: seq<Slot>, n: nat)
    requires |Works(queue)| <= n
    ensures Works(Drained(queue, n).1) == []
    decreases |queue|
  {
    if queue != [] && n > 0 {
      match queue[0]
      case StopSentinel => DrainedLeavesNone(queue[1..], n);
      case Work(_) => DrainedLeavesNone(queue[1..], n - 1);
    }
  }

  // ---------------------------------------------------------------------------
  // The class
  // ---------------------------------------------------------------------------

  function Select(k: Kind, items: seq<Item>): seq<Item> {
    if items == [] then []
    else Select(k, items[..|items| - 1]) + (if items[|items| - 1].kind == k then [items[|items| - 1]] else [])
  }

  lemma {:induction false} SelectMeaning(k: Kind, items: seq<Item>)
    ensures Ids(Select(k, items)) == OfKind(k, items)
    ensures |Select(k, items)| == Count(k, items)
  {
    if items != [] {
      var most, x := items[..|items| - 1], items[|items| - 1];
      SelectMeaning(k, most);
      assert items == most + [x];
      assert [x][1..] == [];
      CountAppend(k, most, [x]);
      OfKindAppend(k, most, x);
      IdsAppend(Select(k, most), [x]);
      assert Select(k, most) + [] == Select(k, most);
    }
  }

  lemma OfKindAppend(k: Kind, most: seq<Item>, x: Item)
    ensures OfKind(k, most + [x]) == OfKind(k, most) + (if x.kind == k then {x.id} else {})
    ensures Ids([x]) == {x.id}
  {
    var all := most + [x];
    assert [x][0] == x;
    forall id | id in OfKind(k, most) ensures id in OfKind(k, all) {
      var i :| 0 <= i < |most| && most[i].kind == k && most[i].id == id;
      assert all[i] == most[i];
    }
    assert all[|most|] == x;
  }

  /** What everybody else does while the flusher waits. */
  predicate IsArrival(a: Action) {
    a.Record? || a.AskStop? || a.Purge?
  }

  predicate AreArrivals(burst: seq<Action>) {
    forall i :: 0 <= i < |burst| ==> IsArrival(burst[i])
  }

  /** One wait inside `_collect`: who arrives first, or that the deadline passes. */
  datatype Tick = Tick(arrivals: seq<Action>, expired: bool)

  /** One round of the flusher: its waits, and how its write goes. */
  datatype Round = Round(ticks: seq<Tick>, arrivals: seq<Action>, fault: Fault)

  datatype Collected = Batch(items: seq<Item>) | StopRequested

  /** `_collect` from a run so far: it gathers until the batch is full, the deadline passes,
      nothing is there to take, or the sentinel is taken (the flag). */
  ghost function Gather(c: Config, trace: seq<Action>, ticks: seq<Tick>): (seq<Action>, bool)
    decreases |ticks|
  {
    if |Replay(c, trace).hand| >= c.batchSize || ticks == [] || ticks[0].expired then (trace, false)
    else
      var waited := trace + ticks[0].arrivals;
      if Replay(c, waited).queue == [] then (waited, false)
      else if Replay(c, waited).queue[0].StopSentinel? then (waited + [Take], true)
      else Gather(c, waited + [Take], ticks[1..])
  }

  /** `_write`: what arrives while the batch is being stored counts only if there is one. */
  ghost function Written(c: Config, trace: seq<Action>, last: bool, round: Round): seq<Action> {
    var begun := trace + [if last then Drain else Flush];
    if Replay(c, begun).phase.Writing? then begun + round.arrivals + [Finish(round.fault)] else begun
  }

  /** `_run`: rounds of gathering and writing, and one last write after the sentinel. */
  ghost function Flusher(c: Config, trace: seq<Action>, script: seq<Round>): seq<Action>
    decreases |script|
  {
    if script == [] then trace
    else
      var g := Gather(c, trace, script[0].ticks);
      if g.1 then Written(c, g.0, true, script[0])
      else Flusher(c, if Replay(c, g.0).hand == [] then g.0 else Written(c, g.0, false, script[0]), script[1..])
  }

  /** The two acceptance counters together number the accepted items. */
  lemma NextId(c: Config, trace: seq<Action>)
    ensures var s := Replay(c, trace); s.stats.enqueuedEvents + s.stats.enqueuedInvocations == |s.accepted|
  {
    RunCounts(c, trace);
    CountSplit(Replay(c, trace).accepted);
  }

  /** Entering `_write` with gathered or drained items begins a write of them. */
  lemma BeginReplay(c: Config, trace: seq<Action>, items: seq<Item>, queue: seq<Slot>, last: bool)
    requires var s := Replay(c, trace);
             if last then s.phase.Draining? && Drained(s.queue, c.batchSize) == (items, queue)
             else s.phase.Collecting? && s.hand == items != [] && s.queue == queue
    ensures var s := Replay(c, trace);
            && Replay(c, trace + [if last then Action.Drain else Action.Flush]) == BeginWrite(c, s.(queue := queue), items, last)
            && s.inflight == []
  {
    RunBounds(c, trace);
    ReplayAppend(c, trace, if last then Action.Drain else Action.Flush);
    assert !last ==> Replay(c, trace).(queue := queue) == Replay(c, trace);
  }

  class TelemetryIngestion {
    const config: Config
    var queue: seq<Slot>
    var retryBuffer: seq<Item>
    var stats: Stats
    var dropLogged: bool
    var stored: set<nat>
    ghost var trace: seq<Action>

    ghost function Book(): Sink
      reads this
    {
      Replay(config, trace)
    }

    /** The fields are those of the run performed so far. */
    ghost predicate Valid()
      reads this
    {
      && Book().queue == queue && Book().retry == retryBuffer
      && Book().stats == stats && Book().stored == stored
    }

    constructor (c: Config)
      ensures config == c && trace == [] && Valid()
    {
      config := c;
      queue, retryBuffer, stats, dropLogged, stored := [], [], NO_STATS, false, {};
      trace := [];
    }

    method Enqueue(k: Kind)
      requires Valid()
      modifies this
      ensures Valid() && trace == old(trace) + [Record(k)]
      ensures dropLogged == if config.enabled then old(|queue|) >= Capacity(config) else old(dropLogged)
    {
      ReplayAppend(config, trace, Record(k));
      NextId(config, trace);
      if config.enabled {
        if |queue| < Capacity(config) {
          queue := queue + [Work(Item(stats.enqueuedEvents + stats.enqueuedInvocations, k))];
          dropLogged := false;
          CountEnqueued(k);
        } else {
          CountDropped(k);
          dropLogged := true;
        }
      }
      trace := trace + [Record(k)];
    }

    method CountEnqueued(k: Kind)
      modifies this`stats
      ensures stats == if k.RequestEvent? then old(stats).(enqueuedEvents := old(stats).enqueuedEvents + 1)
                       else old(stats).(enqueuedInvocations := old(stats).enqueuedInvocations + 1)
    {
      if k.RequestEvent? {
        stats := stats.(enqueuedEvents := stats.enqueuedEvents + 1);
      } else {
        stats := stats.(enqueuedInvocations := stats.enqueuedInvocations + 1);
      }
    }

    method CountDropped(k: Kind)
      modifies this`stats
      ensures stats == if k.RequestEvent? then old(stats).(droppedEvents := old(stats).droppedEvents + 1)
                       else old(stats).(droppedInvocations := old(stats).droppedInvocations + 1)
    {
      if k.RequestEvent? {
        stats := stats.(droppedEvents := stats.droppedEvents + 1);
      } else {
        stats := stats.(droppedInvocations := stats.droppedInvocations + 1);
      }
    }

    /** The part of `stop` that reaches the queue. */
    method PutSentinel()
      requires Valid()
      modifies this
      ensures Valid() && trace == old(trace) + [AskStop]
    {
      ReplayAppend(config, trace, AskStop);
      if |queue| < Capacity(config) {
        queue := queue + [StopSentinel];
      }
      trace := trace + [AskStop];
    }

    /** The retention sweep deletes rows of the tables behind this sink's back. */
    method PurgeRows(ids: set<nat>)
      requires Valid()
      modifies this
      ensures Valid() && trace == old(trace) + [Purge(ids)] && stored == old(stored) - ids
    {
      ReplayAppend(config, trace, Purge(ids));
      stored := stored - ids;
      trace := trace + [Purge(ids)];
    }

    /** An await: any producers may run, and rows may be purged. */
    method Await(burst: seq<Action>)
      requires Valid() && AreArrivals(burst)
      modifies this
      ensures Valid() && trace == old(trace) + burst
      ensures Book().phase == old(Book().phase) && Book().hand == old(Book().hand)
      ensures Book().inflight == old(Book().inflight) && retryBuffer == old(retryBuffer)
    {
      var i := 0;
      while i < |burst|
        invariant 0 <= i <= |burst| && Valid() && trace == old(trace) + burst[..i]
        invariant Book().phase == old(Book().phase) && Book().hand == old(Book().hand)
        invariant Book().inflight == old(Book().inflight) && retryBuffer == old(retryBuffer)
      {
        assert IsArrival(burst[i]);
        ReplayAppend(config, trace, burst[i]);
        assert burst[..i + 1] == burst[..i] + [burst[i]];
        if burst[i].Record? {
          Enqueue(burst[i].kind);
        } else if burst[i].AskStop? {
          PutSentinel();
        } else {
          PurgeRows(burst[i].ids);
        }
        i := i + 1;
      }
      assert burst[..i] == burst;
    }

    method Collect(ticks: seq<Tick>) returns (r: Collected)
      requires Valid() && Book().phase.Collecting? && Book().hand == []
      requires forall i :: 0 <= i < |ticks| ==> AreArrivals(ticks[i].arrivals)
      modifies this
      ensures Valid() && (trace, r.StopRequested?) == Gather(config, old(trace), ticks)
      ensures r.Batch? ==> Book().phase.Collecting? && Book().hand == r.items
      ensures r.StopRequested? ==> Book().phase.Draining?
    {
      var items: seq<Item> := [];
      var i := 0;
      while |items| < config.batchSize && i < |ticks|
        invariant 0 <= i <= |ticks|
        invariant Valid() && Gather(config, trace, ticks[i..]) == Gather(config, old(trace), ticks)
        invariant Book().phase.Collecting? && Book().hand == items
      {
        assert ticks[i..][0] == ticks[i] && ticks[i..][1..] == ticks[i + 1..];
        if ticks[i].expired {
          break;
        }
        Await(ticks[i].arrivals);
        if queue == [] {
          break;
        }
        RunBounds(config, trace);
        ReplayAppend(config, trace, Take);
        var item := queue[0];
        queue := queue[1..];
        trace := trace + [Take];
        if item.StopSentinel? {
          if |queue| < Capacity(config) {
            queue := queue + [StopSentinel];
          }
          return StopRequested;
        }
        items := items + [item.item];
        i := i + 1;
      }
      return Batch(items);
    }

    method DrainAvailable() returns (items: seq<Item>)
      modifies this`queue
      ensures (items, queue) == Drained(old(queue), config.batchSize)
    {
      items := [];
      while queue != [] && |items| < config.batchSize
        invariant |items| <= config.batchSize
        invariant items + Drained(queue, config.batchSize - |items|).0 == Drained(old(queue), config.batchSize).0
        invariant Drained(queue, config.batchSize - |items|).1 == Drained(old(queue), config.batchSize).1
        decreases |queue|
      {
        var slot := queue[0];
        queue := queue[1..];
        if slot.Work? {
          ghost var r := Drained(queue, config.batchSize - |items| - 1);
          assert items + ([slot.item] + r.0) == items + [slot.item] + r.0;
          items := items + [slot.item];
        }
      }
      assert items + [] == items;
    }

    /** The state `_write` is entered in: the items were gathered by `_collect`, or have
        just been drained. */
    ghost predicate ReadyToWrite(items: seq<Item>, last: bool)
      reads this
    {
      && Book().retry == retryBuffer && Book().stats == stats && Book().stored == stored
      && if last then Book().phase.Draining? && Drained(Book().queue, config.batchSize) == (items, queue)
         else Book().phase.Collecting? && Book().hand == items != [] && Book().queue == queue
    }

    method Write(items: seq<Item>, last: bool, round: Round)
      requires ReadyToWrite(items, last) && AreArrivals(round.arrivals)
      modifies this
      ensures Valid() && trace == Written(config, old(trace), last, round)
      ensures Book().phase == if last then Stopped else Collecting
      ensures Book().hand == []
    {
      var batch := Begin(items, last);
      if Settled(batch) {
        return;
      }
      Await(round.arrivals);
      Finish(batch, round.fault);
    }

    /** Nothing to write, or nowhere to write it. */
    predicate Settled(batch: seq<Item>) {
      batch == [] || !config.wired
    }

    /** `_write` up to its first await. */
    method Begin(items: seq<Item>, last: bool) returns (batch: seq<Item>)
      requires ReadyToWrite(items, last)
      modifies this
      ensures Valid() && trace == old(trace) + [if last then Drain else Flush]
      ensures Book().hand == []
      ensures Settled(batch) ==> Book().phase == if last then Stopped else Collecting
      ensures !Settled(batch) ==> Book().phase == Writing(last) && Book().inflight == batch
    {
      BeginReplay(config, trace, items, queue, last);
      batch := Cut(retryBuffer + items, config.batchSize);
      retryBuffer := [];
      trace := trace + [if last then Action.Drain else Action.Flush];
      if batch != [] && !config.wired {
        CountBatch(batch);
      }
    }

    method CountBatch(batch: seq<Item>)
      modifies this`stats
      ensures stats == old(stats).(writtenEvents := old(stats).writtenEvents + Count(RequestEvent, batch),
                                   writtenInvocations := old(stats).writtenInvocations + Count(ToolInvocation, batch))
    {
      var events, invocations := SplitByKind(batch);
      SelectMeaning(RequestEvent, batch);
      SelectMeaning(ToolInvocation, batch);
      stats := stats.(writtenEvents := stats.writtenEvents + |events|,
                      writtenInvocations := stats.writtenInvocations + |invocations|);
    }

    /** `_write` from its session block on. */
    method Finish(batch: seq<Item>, fault: Fault)
      requires Valid() && Book().phase.Writing? && Book().inflight == batch
      modifies this
      ensures Valid() && trace == old(trace) + [Action.Finish(fault)]
      ensures Book().phase == if old(Book().phase.last) then Stopped else Collecting
      ensures Book().hand == []
    {
      RunBounds(config, trace);
      ReplayAppend(config, trace, Action.Finish(fault));
      trace := trace + [Action.Finish(fault)];
      var events, invocations := SplitByKind(batch);
      SelectMeaning(RequestEvent, batch);
      SelectMeaning(ToolInvocation, batch);
      var ok := Save(events, invocations, batch, fault);
      if ok {
        stats := stats.(writtenEvents := stats.writtenEvents + |events|,
                        writtenInvocations := stats.writtenInvocations + |invocations|);
      } else {
        stats := stats.(writeFailures := stats.writeFailures + 1);
        if retryBuffer == [] {
          stats := stats.(retriedBatches := stats.retriedBatches + 1);
          retryBuffer := Cut(batch, config.batchSize);
        }
      }
    }

    /** The session block of `_write`: each table commits on its own. */
    method Save(events: seq<Item>, invocations: seq<Item>, ghost batch: seq<Item>, fault: Fault) returns (ok: bool)
      requires events == Select(RequestEvent, batch) && invocations == Select(ToolInvocation, batch)
      modifies this`stored
      ensures (stored, ok) == Store(old(stored), batch, fault)
    {
      SelectMeaning(RequestEvent, batch);
      SelectMeaning(ToolInvocation, batch);
      if |events| > 0 {
        assert events[0].id in Ids(events);
        if fault.AtEvents? || Ids(events) * stored != {} {
          return false;
        }
        stored := stored + Ids(events);
      } else {
        assert stored + Ids(events) == stored;
      }
      if |invocations| > 0 {
        assert invocations[0].id in Ids(invocations);
        if fault.AtEvents? || fault.AtInvocations? || Ids(invocations) * stored != {} {
          return false;
        }
        stored := stored + Ids(invocations);
      } else {
        assert stored + Ids(invocations) == stored;
      }
      return !fault.AtClose?;
    }

    /** The flusher task, for any schedule of arrivals, deadlines and write outcomes. */
    method Run(script: seq<Round>)
      requires Valid() && Book().phase.Collecting? && Book().hand == []
      requires forall i :: 0 <= i < |script| ==>
        && AreArrivals(script[i].arrivals)
        && forall j :: 0 <= j < |script[i].ticks| ==> AreArrivals(script[i].ticks[j].arrivals)
      modifies this
      ensures Valid() && trace == Flusher(config, old(trace), script)
      ensures Book().phase.Collecting? || Book().phase.Stopped?
    {
      var n := 0;
      while n < |script|
        invariant 0 <= n <= |script|
        invariant Valid() && Book().phase.Collecting? && Book().hand == []
        invariant Flusher(config, trace, script[n..]) == Flusher(config, old(trace), script)
      {
        assert script[n..][0] == script[n] && script[n..][1..] == script[n + 1..];
        var stopped := OneRound(script[n]);
        if stopped {
          return;
        }
        n := n + 1;
      }
    }

    method OneRound(round: Round) returns (stopped: bool)
      requires Valid() && Book().phase.Collecting? && Book().hand == []
      requires AreArrivals(round.arrivals)
      requires forall j :: 0 <= j < |round.ticks| ==> AreArrivals(round.ticks[j].arrivals)
      modifies this
      ensures Valid() && Book().phase == (if stopped then Stopped else Collecting) && Book().hand == []
      ensures var g := Gather(config, old(trace), round.ticks);
              && stopped == g.1
              && trace == if !stopped && Replay(config, g.0).hand == [] then g.0 else Written(config, g.0, stopped, round)
    {
      var r := Collect(round.ticks);
      stopped := r.StopRequested?;
      if stopped {
        var items := DrainAvailable();
        Write(items, true, round);
      } else if |r.items| > 0 {
        Write(r.items, false, round);
      }
    }
  }

  method SplitByKind(batch: seq<Item>) returns (events: seq<Item>, invocations: seq<Item>)
    ensures events == Select(RequestEvent, batch) && invocations == Select(ToolInvocation, batch)
  {
    events, invocations := [], [];
    for i := 0 to |batch|
      invariant events == Select(RequestEvent, batch[..i])
      invariant invocations == Select(ToolInvocation, batch[..i])
    {
      assert batch[..i + 1][..i] == batch[..i];
      if batch[i].kind == RequestEvent {
        events := events + [batch[i]];
      } else {
        invocations := invocations + [batch[i]];
      }
    }
    assert batch[..|batch|] == batch;
  }
}
