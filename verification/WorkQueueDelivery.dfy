/** No published work is lost: what acknowledging late, re-queueing first and
    dead-lettering first buy, over every interleaving with failures and crashes. */
module WorkQueueDelivery {
  import opened WorkQueue
  import Messages = WorkQueueMessages

  /** Waiting in the stream, or delivered and not yet acknowledged. */
  predicate Live(s: Sys, e: nat) {
    e < |s.stream| && (e >= s.cursor || e in s.pending)
  }

  predicate Settled(s: Sys, task: nat) {
    task in s.done || task in s.dead || task in s.unlucky
  }

  /** Settled, or carried by a live entry at or after `from`. */
  ghost predicate Covered(s: Sys, task: nat, from: nat) {
    Settled(s, task) || exists e :: Live(s, e) && from <= e && EntryAt(s, e).task == task
  }

  /** What an actor may rely on when it is about to acknowledge. */
  ghost predicate PcOk(s: Sys, pc: Pc) {
    match pc
    case Returned(e) => e < s.cursor && EntryAt(s, e).task in s.done
    case Buried(e) => e < s.cursor && Settled(s, EntryAt(s, e).task)
    case Requeued(e, todo) => e < s.cursor && Covered(s, EntryAt(s, e).task, e + 1) && Known(s, todo)
    case Sweeping(todo) => Known(s, todo)
    case Raised(e) => e < s.cursor
    case _ => Processing(pc) ==> pc.e < s.cursor
  }

  predicate Known(s: Sys, todo: seq<nat>) {
    forall i :: 0 <= i < |todo| ==> todo[i] < s.cursor
  }

  ghost predicate Wellformed(s: Sys) {
    && s.cursor <= |s.stream|
    && (forall e :: e in s.pending ==> e < s.cursor)
    && (forall e :: e in s.trimmed ==> EntryAt(s, e).task in s.unlucky)
    && (forall e :: e in s.trimmed ==> e < |s.stream|)
  }

  ghost predicate Inv(s: Sys) {
    && Wellformed(s)
    && (forall t :: 0 <= t < |s.published| ==> Covered(s, t, 0))
    && (forall w :: PcOk(s, At(s, w)))
  }

  /** Nothing recorded is forgotten, and an entry stops being live only when its task is
      covered without it. */
  ghost predicate Compensated(s: Sys, s': Sys) {
    && s.stream <= s'.stream && s.cursor <= s'.cursor
    && s.done <= s'.done && s.dead <= s'.dead && s.unlucky <= s'.unlucky
    && (forall e :: Live(s, e) ==> Live(s', e) || Covered(s', EntryAt(s, e).task, e))
  }

  lemma CoveredStays(s: Sys, s': Sys, task: nat, from: nat)
    requires Compensated(s, s') && Covered(s, task, from)
    ensures Covered(s', task, from)
  {
    if !Settled(s, task) {
      var e :| Live(s, e) && from <= e && EntryAt(s, e).task == task;
      if Live(s', e) {
        assert EntryAt(s', e) == EntryAt(s, e);
      } else {
        LaterCovers(s', task, e, from);
      }
    }
  }

  lemma LaterCovers(s: Sys, task: nat, later: nat, from: nat)
    requires Covered(s, task, later) && from <= later
    ensures Covered(s, task, from)
  {
    if !Settled(s, task) {
      var e :| Live(s, e) && later <= e && EntryAt(s, e).task == task;
      assert Live(s, e) && from <= e;
    }
  }

  lemma PcStays(s: Sys, s': Sys, pc: Pc)
    requires Compensated(s, s') && s.cursor <= |s.stream| && PcOk(s, pc)
    ensures PcOk(s', pc)
  {
    if pc.Requeued? {
      CoveredStays(s, s', EntryAt(s, pc.e).task, pc.e + 1);
    }
  }

  /** Putting the pieces together: one actor moves, perhaps one task is added. */
  lemma Assemble(s: Sys, s': Sys, w: nat)
    requires Inv(s) && Wellformed(s') && Compensated(s, s') && OnlyMoved(s, s', w)
    requires PcOk(s', At(s', w))
    requires |s'.published| == |s.published| || (|s'.published| == |s.published| + 1 && Covered(s', |s.published|, 0))
    ensures Inv(s')
  {
    forall t | 0 <= t < |s'.published| ensures Covered(s', t, 0) {
      if t < |s.published| {
        CoveredStays(s, s', t, 0);
      }
    }
    forall v ensures PcOk(s', At(s', v)) {
      if v != w {
        PcStays(s, s', At(s, v));
      }
    }
  }

  /** Acknowledging an entry whose task is covered without it. */
  lemma UnpendCompensated(s: Sys, e: nat)
    requires s.cursor <= |s.stream| && e < s.cursor
    requires Covered(s, EntryAt(s, e).task, e + 1)
    ensures Compensated(s, Unpend(s, e))
  {
    var s' := Unpend(s, e);
    assert Covered(s', EntryAt(s, e).task, e) by {
      if !Settled(s, EntryAt(s, e).task) {
        var e' :| Live(s, e') && e + 1 <= e' && EntryAt(s, e').task == EntryAt(s, e).task;
        assert Live(s', e') && EntryAt(s', e') == EntryAt(s, e');
      }
    }
    assert forall d :: Live(s, d) && d != e ==> Live(s', d);
  }

  lemma AppendCompensated(s: Sys, task: nat, msg: Message)
    requires s.cursor <= |s.stream|
    ensures Compensated(s, Append(s, task, msg))
    ensures forall from: nat :: from <= |s.stream| ==> Covered(Append(s, task, msg), task, from)
  {
    var s' := Append(s, task, msg);
    assert Live(s', |s.stream|) && EntryAt(s', |s.stream|).task == task;
    assert forall e :: Live(s, e) ==> Live(s', e);
  }

  lemma RequestKeeps(s: Sys, w: nat, r: RequestStep)
    requires Inv(s)
    ensures Inv(DoRequest(s, w, r))
  {
    var s' := DoRequest(s, w, r);
    RequestFrame(s, w, r);
    assert PcOk(s, At(s, w));
    if r.Publish? && !r.sent.NotDone? && At(s, w).Created? {
      var added := Append(s, |s.published|, Execution(At(s, w).x));
      AppendCompensated(s, |s.published|, Execution(At(s, w).x));
      SameQueue(added, s', |s.published|);
      assert Compensated(s, s');
      Assemble(s, s', w);
    } else {
      Still(s, s', w);
    }
  }

  /** Queue and records agree. */
  ghost predicate SameRecords(s: Sys, s': Sys) {
    && s'.stream == s.stream && s'.cursor == s.cursor && s'.pending == s.pending && s'.trimmed == s.trimmed
    && s'.dead == s.dead && s'.unlucky == s.unlucky && s.done <= s'.done
  }

  lemma SameQueue(s: Sys, s': Sys, task: nat)
    requires SameRecords(s, s')
    ensures forall e :: Live(s, e) == Live(s', e)
    ensures Covered(s, task, 0) ==> Covered(s', task, 0)
    ensures Compensated(s, s')
  {
    assert forall e :: Live(s, e) == Live(s', e);
    if Covered(s, task, 0) && !Settled(s, task) {
      var e :| Live(s, e) && EntryAt(s, e).task == task;
      assert Live(s', e) && EntryAt(s', e).task == task;
    }
  }

  /** Nothing happened to the queue. */
  lemma Still(s: Sys, s': Sys, w: nat)
    requires Inv(s) && SameRecords(s, s') && s'.published == s.published && OnlyMoved(s, s', w)
    requires At(s', w) == At(s, w) || PcOk(s', At(s', w))
    ensures Inv(s')
  {
    SameQueue(s, s', 0);
    PcStays(s, s', At(s, w));
    Assemble(s, s', w);
  }

  lemma WorldKeeps(s: Sys, o: WorldStep)
    requires Inv(s)
    ensures Inv(DoWorld(s, o))
  {
    var s' := DoWorld(s, o);
    WorldFrame(s, o);
    match o {
      case PublishOther(snapshot) =>
        var added := Append(s, |s.published|, if snapshot then Snapshot else Malformed);
        AppendCompensated(s, |s.published|, if snapshot then Snapshot else Malformed);
        SameQueue(added, s', |s.published|);
        assert Compensated(s, s');
      case DeleteRow(_) => SameQueue(s, s', 0);
      case Trim(_) =>
        assert forall e :: Live(s, e) ==> Live(s', e);
        assert Compensated(s, s');
    }
    assert PcOk(s, At(s, 0));
    PcStays(s, s', At(s, 0));
    Assemble(s, s', 0);
  }

  lemma HandlerKeeps(s: Sys, w: nat, h: HandlerStep)
    requires Inv(s)
    ensures Inv(DoHandler(s, w, h))
  {
    HandlerFrame(s, w, h);
    assert PcOk(s, At(s, w));
    HandlerPc(s, w, h);
    Still(s, DoHandler(s, w, h), w);
  }

  lemma HandlerPc(s: Sys, w: nat, h: HandlerStep)
    requires PcOk(s, At(s, w))
    ensures var s' := DoHandler(s, w, h);
            (At(s', w) == At(s, w) || PcOk(s', At(s', w))) && s.done <= s'.done
  {
  }

  lemma FetchKeeps(s: Sys, w: nat)
    requires Inv(s)
    ensures Inv(DoQueue(s, w, Fetch))
  {
    var s' := DoQueue(s, w, Fetch);
    QueueFrame(s, w, Fetch);
    assert PcOk(s, At(s, w));
    if s' != s {
      assert forall e :: Live(s, e) && e != s.cursor ==> Live(s', e);
      if s.cursor in s.trimmed {
        assert Settled(s', EntryAt(s, s.cursor).task);
      } else {
        assert Live(s', s.cursor);
      }
      assert Compensated(s, s');
      Assemble(s, s', w);
    }
  }

  lemma AckKeeps(s: Sys, w: nat, e: nat, pc: Pc)
    requires Inv(s) && e < s.cursor && Covered(s, EntryAt(s, e).task, e + 1)
    requires pc.Idle? || pc.Gone? || (pc.Sweeping? && Known(s, pc.todo))
    ensures Inv(Goto(Unpend(s, e), w, pc))
  {
    var s' := Goto(Unpend(s, e), w, pc);
    UnpendCompensated(s, e);
    SameQueue(Unpend(s, e), s', EntryAt(s, e).task);
    assert Compensated(s, s') by {
      forall d | Live(s, d) ensures Live(s', d) || Covered(s', EntryAt(s, d).task, d) {
        if !Live(s', d) {
          CoveredStays(Unpend(s, e), s', EntryAt(s, d).task, d);
        }
      }
    }
    Assemble(s, s', w);
  }

  lemma RequeueKeeps(s: Sys, w: nat, sent: Sent)
    requires Inv(s) && At(s, w).Sweeping? && At(s, w).todo != []
    ensures Inv(DoQueue(s, w, Requeue(sent)))
  {
    var s' := DoQueue(s, w, Requeue(sent));
    var todo := At(s, w).todo;
    var e, rest := todo[0], todo[1..];
    assert PcOk(s, At(s, w));
    assert Known(s, rest);
    if e in s.trimmed || sent.NotDone? {
      Still(s, s', w);
    } else {
      CopyKeeps(s, w, e, if sent.Done? then Requeued(e, rest) else Sweeping(rest));
    }
  }

  /** A copy has landed, whatever becomes of the original. */
  lemma CopyKeeps(s: Sys, w: nat, e: nat, pc: Pc)
    requires Inv(s) && e < s.cursor
    requires (pc.Requeued? && pc.e == e && Known(s, pc.todo)) || (pc.Sweeping? && Known(s, pc.todo))
    ensures Inv(Append(Goto(s, w, pc), EntryAt(s, e).task, EntryAt(s, e).msg))
  {
    var s' := Append(Goto(s, w, pc), EntryAt(s, e).task, EntryAt(s, e).msg);
    var added := Append(s, EntryAt(s, e).task, EntryAt(s, e).msg);
    AppendCompensated(s, EntryAt(s, e).task, EntryAt(s, e).msg);
    SameQueue(added, s', 0);
    CoveredStays(added, s', EntryAt(s, e).task, e + 1);
    assert EntryAt(s', e) == EntryAt(s, e);
    assert Compensated(s, s');
    Assemble(s, s', w);
  }

  lemma SweepKeeps(s: Sys, w: nat, stale: seq<nat>)
    requires Inv(s)
    ensures Inv(DoQueue(s, w, Sweep(stale)))
  {
    var s' := DoQueue(s, w, Sweep(stale));
    QueueFrame(s, w, Sweep(stale));
    if s' != s {
      assert forall e :: e in s'.pending <==> e in s.pending;
      assert forall e :: Live(s, e) == Live(s', e);
      assert Compensated(s, s');
      Assemble(s, s', w);
    }
  }

  lemma BuryKeeps(s: Sys, w: nat, ok: bool)
    requires Inv(s)
    ensures Inv(DoQueue(s, w, Bury(ok)))
  {
    var s' := DoQueue(s, w, Bury(ok));
    assert PcOk(s, At(s, w));
    if s' != s {
      assert forall e :: Live(s, e) == Live(s', e);
      assert Compensated(s, s');
      Assemble(s, s', w);
    }
  }

  lemma QueueKeeps(s: Sys, w: nat, q: QueueStep)
    requires Inv(s)
    ensures Inv(DoQueue(s, w, q))
  {
    var pc := At(s, w);
    assert PcOk(s, pc);
    match q {
      case Start => Still(s, DoQueue(s, w, q), w);
      case Crash => Still(s, DoQueue(s, w, q), w);
      case Fetch => FetchKeeps(s, w);
      case Ack(sent) =>
        if pc.Returned? && !sent.NotDone? { AckKeeps(s, w, pc.e, if sent.Done? then Idle else Gone); }
        else { Still(s, DoQueue(s, w, q), w); }
      case Bury(ok) => BuryKeeps(s, w, ok);
      case BuryAck(ok) =>
        if pc.Buried? && ok { AckKeeps(s, w, pc.e, Idle); } else { Still(s, DoQueue(s, w, q), w); }
      case Sweep(stale) => SweepKeeps(s, w, stale);
      case Requeue(sent) =>
        if pc.Sweeping? && pc.todo != [] { RequeueKeeps(s, w, sent); } else { Still(s, DoQueue(s, w, q), w); }
      case RequeueAck(ok) =>
        if pc.Requeued? && ok { AckKeeps(s, w, pc.e, Sweeping(pc.todo)); } else { Still(s, DoQueue(s, w, q), w); }
    }
  }

  lemma StepKeeps(s: Sys, a: Action)
    requires Inv(s)
    ensures Inv(Step(s, a))
  {
    match a
    case Request(w, r) => RequestKeeps(s, w, r);
    case Handler(w, h) => HandlerKeeps(s, w, h);
    case Queue(w, q) => QueueKeeps(s, w, q);
    case World(o) => WorldKeeps(s, o);
  }

  lemma {:induction false} RunKeeps(s: Sys, actions: seq<Action>)
    requires Inv(s)
    ensures Inv(Run(s, actions))
    decreases |actions|
  {
    if actions != [] {
      StepKeeps(s, actions[0]);
      RunKeeps(Step(s, actions[0]), actions[1..]);
    }
  }

  /** Every published task is always waiting or pending with the message it was published with, processed to a normal return or
      dead-lettered; the only exceptions are tasks whose own dead letter could not be
      written or whose entry was deleted from the stream. */
  lemma NothingIsLost(actions: seq<Action>, task: nat)
    requires task < |Run(INIT, actions).published|
    ensures var s := Run(INIT, actions);
            || task in s.done || task in s.dead || task in s.unlucky
            || exists e: nat :: Live(s, e) && s.stream[e] == Entry(task, s.published[task])
  {
    var s := Run(INIT, actions);
    RunKeeps(INIT, actions);
    Messages.RunKeeps(INIT, actions);
    assert Covered(s, task, 0);
    if !Settled(s, task) {
      var e: nat :| Live(s, e) && EntryAt(s, e).task == task;
      assert s.stream[e] == Entry(task, s.published[task]);
    }
  }

  // ---------------------------------------------------------------------------
  // Who is unlucky
  // ---------------------------------------------------------------------------

  /** A failed dead-letter write, or a deleted entry. */
  predicate Harmful(a: Action) {
    (a.Queue? && a.queue.Bury? && !a.queue.ok) || (a.World? && a.world.Trim?)
  }

  lemma {:induction false} OnlyHarmHarms(s: Sys, actions: seq<Action>)
    requires forall i :: 0 <= i < |actions| ==> !Harmful(actions[i])
    ensures Run(s, actions).unlucky == s.unlucky
    decreases |actions|
  {
    if actions != [] {
      var a := actions[0];
      assert !Harmful(a);
      assert Step(s, a).unlucky == s.unlucky;
      OnlyHarmHarms(Step(s, a), actions[1..]);
    }
  }

  /** With dead-letter writes succeeding and no entry deleted, nothing is lost at all,
      whatever crashes and whichever acknowledgements and re-publishes fail. */
  lemma NothingIsLostWithoutHarm(actions: seq<Action>, task: nat)
    requires forall i :: 0 <= i < |actions| ==> !Harmful(actions[i])
    requires task < |Run(INIT, actions).published|
    ensures var s := Run(INIT, actions);
            task in s.done || task in s.dead || exists e: nat :: Live(s, e) && s.stream[e] == Entry(task, s.published[task])
  {
    NothingIsLost(actions, task);
    OnlyHarmHarms(INIT, actions);
  }

  /** The failure handler acknowledges even when the dead letter was not written, so one
      failed write does lose work. */
  lemma FailedDeadLetterLosesWork()
    ensures exists actions :: var s := Run(INIT, actions);
            && |s.published| == 1 && 0 !in s.done && 0 !in s.dead && forall e :: !Live(s, e)
  {
    var actions := [World(PublishOther(false)), Queue(0, Start), Queue(0, Fetch), Handler(0, ReadRow),
                    Queue(0, Bury(false)), Queue(0, BuryAck(true))];
    var s4 := MalformedRaises();
    var s6 := Step(Step(s4, actions[4]), actions[5]);
    RunSix(INIT, actions[0], actions[1], actions[2], actions[3], actions[4], actions[5]);
    assert actions == [actions[0], actions[1], actions[2], actions[3], actions[4], actions[5]];
    assert Run(INIT, actions) == s6;
    assert s6.pending == map[] && |s6.stream| == 1 && s6.cursor == 1;
  }

  /** A malformed message has been fetched and the handler has raised. */
  lemma MalformedRaises() returns (s: Sys)
    ensures s == Step(Step(Step(Step(INIT, World(PublishOther(false))), Queue(0, Start)), Queue(0, Fetch)), Handler(0, ReadRow))
    ensures At(s, 0) == Raised(0) && s.pending == map[0 := 0] && s.stream == [Entry(0, Malformed)] && s.cursor == 1
    ensures |s.published| == 1 && s.done == {} && s.dead == {} && s.trimmed == {}
  {
    var s1 := Step(INIT, World(PublishOther(false)));
    var s3 := Step(Step(s1, Queue(0, Start)), Queue(0, Fetch));
    assert s3.pending == map[0 := 0] && At(s3, 0) == Fetched(0);
    s := Step(s3, Handler(0, ReadRow));
  }
}
