/**
 What can still be done from every reachable state: no crash, redelivery or half-finished
 sweep ever wedges the queue. Whatever is not settled can be delivered again, with its own
 message.
 */
module WorkQueueRecovery {
  import opened WorkQueue
  import opened WorkQueueDelivery
  import Messages = WorkQueueMessages

  /** Only the queue moved: nothing was executed, settled, written or published anew. */
  ghost predicate OnlyQueue(s: Sys, t: Sys) {
    && t.rows == s.rows && t.runs == s.runs && t.done == s.done && t.dead == s.dead
    && t.unlucky == s.unlucky && t.trimmed == s.trimmed && t.published == s.published && s.stream <= t.stream
  }

  lemma Chain(s: Sys, a: seq<Action>, b: seq<Action>, t: Sys)
    requires Run(Run(s, a), b) == t
    ensures Run(s, a + b) == t
  {
    RunAppend(s, a, b);
  }

  /** A restart brings any worker back to idle. */
  lemma Restart(s: Sys, w: nat) returns (cont: seq<Action>)
    ensures var t := Run(s, cont);
            OnlyQueue(s, t) && At(t, w).Idle? && t.stream == s.stream && t.cursor == s.cursor && t.pending == s.pending
  {
    cont := [Queue(w, Crash), Queue(w, Start)];
    RunTwo(s, cont[0], cont[1]);
  }

  /** A sweep by an idle worker moves a pending entry back to the end of the stream. */
  lemma SweepMovesBack(s: Sys, w: nat, e: nat) returns (cont: seq<Action>)
    requires At(s, w).Idle? && e in s.pending && e !in s.trimmed && e < |s.stream|
    ensures var t := Run(s, cont);
            && OnlyQueue(s, t) && At(t, w).Idle? && t.cursor == s.cursor
            && t.stream == s.stream + [s.stream[e]] && t.pending.Keys == s.pending.Keys - {e}
  {
    var copy := [Queue(w, Sweep([e])), Queue(w, Requeue(Done))];
    var settle := [Queue(w, RequeueAck(true)), Queue(w, Requeue(Done))];
    cont := copy + settle;
    CopyPublished(s, w, e);
    RunTwo(s, copy[0], copy[1]);
    var s2 := Run(s, copy);
    CopySettled(s2, w, e);
    RunTwo(s2, settle[0], settle[1]);
    Chain(s, copy, settle, Run(s2, settle));
  }

  lemma CopyPublished(s: Sys, w: nat, e: nat)
    requires At(s, w).Idle? && e in s.pending && e !in s.trimmed && e < |s.stream|
    ensures var t := DoQueue(DoQueue(s, w, Sweep([e])), w, Requeue(Done));
            && OnlyQueue(s, t) && At(t, w) == Requeued(e, []) && t.cursor == s.cursor
            && t.stream == s.stream + [s.stream[e]] && t.pending.Keys == s.pending.Keys
  {
    var s1 := DoQueue(s, w, Sweep([e]));
    assert At(s1, w) == Sweeping([e]) && [e][0] == e && [e][1..] == [];
  }

  lemma CopySettled(s: Sys, w: nat, e: nat)
    requires At(s, w) == Requeued(e, [])
    ensures var t := DoQueue(DoQueue(s, w, RequeueAck(true)), w, Requeue(Done));
            && OnlyQueue(s, t) && At(t, w).Idle? && t.cursor == s.cursor
            && t.stream == s.stream && t.pending.Keys == s.pending.Keys - {e}
  {
    assert At(DoQueue(s, w, RequeueAck(true)), w) == Sweeping([]);
  }

  /** One read passes over the entry at the cursor. */
  lemma PassOne(s: Sys, w: nat) returns (cont: seq<Action>)
    requires At(s, w).Idle? && s.cursor < |s.stream|
    ensures var t := Run(s, cont);
            OnlyQueue(s, t) && At(t, w).Idle? && t.stream == s.stream && t.cursor == s.cursor + 1
  {
    RunTwo(s, Queue(w, Fetch), Queue(w, Fetch));
    var rest := Restart(Step(s, Queue(w, Fetch)), w);
    cont := [Queue(w, Fetch)] + rest;
    Chain(s, [Queue(w, Fetch)], rest, Run(Step(s, Queue(w, Fetch)), rest));
  }

  /** An undelivered entry that was not deleted can be reached by reading on. */
  lemma {:induction false} ReadUpTo(s: Sys, w: nat, e: nat) returns (cont: seq<Action>)
    requires At(s, w).Idle? && s.cursor <= e < |s.stream| && e !in s.trimmed
    ensures var t := Run(s, cont);
            OnlyQueue(s, t) && At(t, w) == Fetched(e) && t.stream == s.stream && e in t.pending && t.pending[e] == w
    decreases e - s.cursor
  {
    if s.cursor == e {
      cont := [Queue(w, Fetch)];
      RunTwo(s, cont[0], cont[0]);
    } else {
      var pass := PassOne(s, w);
      var rest := ReadUpTo(Run(s, pass), w, e);
      cont := pass + rest;
      Chain(s, pass, rest, Run(Run(s, pass), rest));
    }
  }

  /** A live entry that was not deleted can be handed to any worker, itself or as a copy. */
  lemma LiveCanBeDelivered(s: Sys, w: nat, e: nat) returns (cont: seq<Action>, at: nat)
    requires Wellformed(s) && Live(s, e) && e !in s.trimmed
    ensures var t := Run(s, cont);
            OnlyQueue(s, t) && At(t, w) == Fetched(at) && at < |t.stream| && t.stream[at] == s.stream[e]
  {
    var first := Restart(s, w);
    var s1 := Run(s, first);
    if e >= s.cursor {
      var rest := ReadUpTo(s1, w, e);
      cont, at := first + rest, e;
      Chain(s, first, rest, Run(s1, rest));
    } else {
      var sweep := SweepMovesBack(s1, w, e);
      var s2 := Run(s1, sweep);
      var rest := ReadUpTo(s2, w, |s.stream|);
      cont, at := first + (sweep + rest), |s.stream|;
      Chain(s1, sweep, rest, Run(s2, rest));
      Chain(s, first, sweep + rest, Run(s2, rest));
    }
  }

  /** In every reachable state and for every worker, a published unit was processed to a
      return, dead-lettered or harmed, or the run can be continued, executing and writing
      nothing, until that worker holds an entry for it with the message it was published
      with. */
  lemma SettledOrDeliverable(actions: seq<Action>, w: nat, task: nat)
    requires task < |Run(INIT, actions).published|
    ensures var s := Run(INIT, actions);
            || Settled(s, task)
            || exists cont, at: nat ::
                 var t := Run(INIT, actions + cont);
                 OnlyQueue(s, t) && At(t, w) == Fetched(at) && at < |t.stream| && t.stream[at] == Entry(task, s.published[task])
  {
    var s := Run(INIT, actions);
    RunKeeps(INIT, actions);
    Messages.RunKeeps(INIT, actions);
    if !Settled(s, task) {
      assert Covered(s, task, 0);
      var e :| Live(s, e) && EntryAt(s, e).task == task;
      var cont, at := LiveCanBeDelivered(s, w, e);
      RunAppend(INIT, actions, cont);
      assert Run(INIT, actions + cont) == Run(s, cont);
    }
  }

  // ---------------------------------------------------------------------------
  // Who is gone, and what is deleted
  // ---------------------------------------------------------------------------

  predicate Starts(a: Action, w: nat) {
    a.Queue? && a.w == w && a.queue.Start?
  }

  lemma GoneStep(s: Sys, a: Action, w: nat)
    requires At(s, w).Gone? && !Starts(a, w)
    ensures At(Step(s, a), w).Gone?
  {
    match a {
      case Request(v, r) => RequestFrame(s, v, r);
      case Handler(v, h) => HandlerFrame(s, v, h);
      case Queue(v, q) => QueueFrame(s, v, q);
      case World(o) => WorldFrame(s, o);
    }
  }

  lemma {:induction false} GoneStays(s: Sys, actions: seq<Action>, w: nat)
    requires At(s, w).Gone? && forall i :: 0 <= i < |actions| ==> !Starts(actions[i], w)
    ensures At(Run(s, actions), w).Gone?
    decreases |actions|
  {
    if actions != [] {
      GoneStep(s, actions[0], w);
      GoneStays(Step(s, actions[0]), actions[1..], w);
    }
  }

  /** A crashed worker does nothing until it is started again. */
  lemma CrashedDoNothing(s: Sys, actions: seq<Action>, w: nat)
    requires forall i :: 0 <= i < |actions| ==> !Starts(actions[i], w)
    ensures At(Run(s, [Queue(w, Crash)] + actions), w).Gone?
  {
    RunTwo(s, Queue(w, Crash), Queue(w, Crash));
    RunAppend(s, [Queue(w, Crash)], actions);
    GoneStays(Step(s, Queue(w, Crash)), actions, w);
  }

  lemma DeletedStep(s: Sys, a: Action, e: nat)
    requires e in s.trimmed && e !in s.pending
    ensures e in Step(s, a).trimmed && e !in Step(s, a).pending
  {
    match a {
      case Request(v, r) => RequestFrame(s, v, r);
      case Handler(v, h) => HandlerFrame(s, v, h);
      case Queue(v, q) => QueueFrame(s, v, q);
      case World(o) => WorldFrame(s, o);
    }
  }

  lemma {:induction false} DeletedStays(s: Sys, actions: seq<Action>, e: nat)
    requires e in s.trimmed && e !in s.pending
    ensures e !in Run(s, actions).pending
    decreases |actions|
  {
    if actions != [] {
      DeletedStep(s, actions[0], e);
      DeletedStays(Step(s, actions[0]), actions[1..], e);
    }
  }

  /** An entry deleted before it was delivered is delivered to nobody, in any continuation. */
  lemma DeletedIsNotDelivered(actions: seq<Action>, rest: seq<Action>, e: nat)
    requires Run(INIT, actions).cursor <= e < |Run(INIT, actions).stream|
    ensures e !in Run(INIT, actions + ([World(Trim(e))] + rest)).pending
  {
    var s := Run(INIT, actions);
    RunKeeps(INIT, actions);
    RunAppend(INIT, actions, [World(Trim(e))] + rest);
    RunAppend(s, [World(Trim(e))], rest);
    RunTwo(s, World(Trim(e)), World(Trim(e)));
    DeletedStays(Step(s, World(Trim(e))), rest, e);
  }

  // ---------------------------------------------------------------------------
  // Requests and snapshots, from beginning to end
  // ---------------------------------------------------------------------------

  /** A cancellation nobody interferes with sets the row and leaves the rest alone. */
  lemma CancelSettles(s: Sys, w: nat, x: nat)
    requires At(s, w).Idle? && x in s.rows && !s.rows[x].Terminal()
    ensures var t := Run(s, [Request(w, ReadForCancel(x)), Request(w, Cancel)]);
            t.rows == s.rows[x := CANCELLED] && t.stream == s.stream && t.runs == s.runs && At(t, w).Idle?
  {
    RunTwo(s, Request(w, ReadForCancel(x)), Request(w, Cancel));
  }

  /** A submission that cannot be queued leaves a FAILED row, and a message only if the
      publish took effect before it raised. */
  lemma UnqueuedSubmitFails(s: Sys, w: nat, x: nat, sent: Sent)
    requires At(s, w).Idle? && x !in s.issued && !sent.Done?
    ensures var t := Run(s, [Request(w, Submit(x))] + [Request(w, Publish(sent)), Request(w, FailUnpublished)]);
            && t.rows == s.rows[x := FAILED] && At(t, w).Idle? && t.runs == s.runs
            && t.stream == s.stream + (if sent.NotDone? then [] else [Entry(|s.published|, Execution(x))])
  {
    var a, b, c := Request(w, Submit(x)), Request(w, Publish(sent)), Request(w, FailUnpublished);
    RunAppend(s, [a], [b, c]);
    RunTwo(s, a, a);
    RunTwo(Step(s, a), b, c);
    assert s.stream + [] == s.stream;
  }

  /** A snapshot message that is handled is acknowledged and done; one whose handler raises is
      dead-lettered and acknowledged. */
  lemma SnapshotSettles(s: Sys, w: nat, e: nat, ok: bool)
    requires At(s, w) == Fetched(e) && e < |s.stream| && s.stream[e].msg.Snapshot?
    ensures var t := Run(s, [Handler(w, SnapshotDone(ok))]
                            + if ok then [Queue(w, Ack(Done))] else [Queue(w, Bury(true)), Queue(w, BuryAck(true))]);
            && At(t, w).Idle? && t.pending == s.pending - {e} && t.rows == s.rows && t.runs == s.runs
            && t.done == s.done + (if ok then {s.stream[e].task} else {})
            && t.dead == s.dead + (if ok then {} else {s.stream[e].task})
  {
    var a := Handler(w, SnapshotDone(ok));
    RunTwo(s, a, a);
    RunAppend(s, [a], if ok then [Queue(w, Ack(Done))] else [Queue(w, Bury(true)), Queue(w, BuryAck(true))]);
    RunTwo(Step(s, a), Queue(w, Ack(Done)), a);
    RunTwo(Step(s, a), Queue(w, Bury(true)), Queue(w, BuryAck(true)));
  }
}
