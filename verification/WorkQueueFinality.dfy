/** When a terminal status is final: exactly while no actor holds a stale write. */
module WorkQueueFinality {
  import opened WorkQueue

  /** The statuses an actor can still write to `x` without reading its row again. */
  function MayWrite(pc: Pc, x: nat): set<Status> {
    match pc
    case Seen(_, y, _) => if x == y then {FAILED} else {}             // workspace gone, runtime down
    case Claimed(_, y) => if x == y then {FAILED} else {}             // the provider will raise
    case Running(_, y) => if x == y then {FAILED} else {}             // the provider raises
    case Writing(_, y, status) => if x == y then {status} else {}
    case Created(y) => if x == y then {FAILED} else {}                // publishing fails
    case Unpublished(y) => if x == y then {FAILED} else {}
    case Cancelling(y) => if x == y then {CANCELLED} else {}
    case _ => {}
  }

  /** No actor can write anything but `status` to `x` before reading it. */
  ghost predicate NoStaleWrite(s: Sys, x: nat, status: Status) {
    forall w :: MayWrite(At(s, w), x) <= {status}
  }

  /** The row, while it exists, is settled. */
  ghost predicate Sealed(s: Sys, x: nat, status: Status) {
    && x in s.issued
    && (x in s.rows ==> s.rows[x] == status && NoStaleWrite(s, x, status))
  }

  lemma Reseal(s: Sys, s': Sys, w: nat, x: nat, status: Status)
    requires Sealed(s, x, status) && OnlyMoved(s, s', w) && s.issued <= s'.issued
    requires x in s'.rows ==> x in s.rows && s'.rows[x] == status && MayWrite(At(s', w), x) <= {status}
    ensures Sealed(s', x, status)
  {
  }

  lemma SealedByRequest(s: Sys, w: nat, r: RequestStep, x: nat, status: Status)
    requires Sealed(s, x, status) && status.Terminal()
    ensures Sealed(DoRequest(s, w, r), x, status)
  {
    RequestFrame(s, w, r);
    assert x in s.rows ==> MayWrite(At(s, w), x) <= {status};
    if x in s.rows && r.Cancel? && At(s, w).Cancelling? && At(s, w).x == x {
      assert CANCELLED in MayWrite(At(s, w), x);
    }
    if x in s.rows && r.FailUnpublished? && At(s, w).Unpublished? && At(s, w).x == x {
      assert FAILED in MayWrite(At(s, w), x);
    }
    Reseal(s, DoRequest(s, w, r), w, x, status);
  }

  lemma HandlerRow(s: Sys, w: nat, h: HandlerStep, x: nat, status: Status)
    requires status.Terminal() && x in s.rows && s.rows[x] == status && MayWrite(At(s, w), x) <= {status}
    ensures var s' := DoHandler(s, w, h);
            x in s'.rows && s'.rows[x] == status && MayWrite(At(s', w), x) <= {status}
  {
    if h.Write? && At(s, w).Writing? && At(s, w).x == x {
      assert At(s, w).status in MayWrite(At(s, w), x);
    }
  }

  lemma HandlerCreatesNothing(s: Sys, w: nat, h: HandlerStep, x: nat)
    requires x !in s.rows
    ensures x !in DoHandler(s, w, h).rows
  {
  }

  lemma SealedByHandler(s: Sys, w: nat, h: HandlerStep, x: nat, status: Status)
    requires Sealed(s, x, status) && status.Terminal()
    ensures Sealed(DoHandler(s, w, h), x, status)
  {
    HandlerFrame(s, w, h);
    if x in s.rows {
      HandlerRow(s, w, h, x, status);
    } else {
      HandlerCreatesNothing(s, w, h, x);
    }
    Reseal(s, DoHandler(s, w, h), w, x, status);
  }

  lemma SealedByQueue(s: Sys, w: nat, q: QueueStep, x: nat, status: Status)
    requires Sealed(s, x, status)
    ensures Sealed(DoQueue(s, w, q), x, status)
  {
    QueueFrame(s, w, q);
    QueueWritesNothing(s, w, q, x);
    assert x in s.rows ==> MayWrite(At(s, w), x) <= {status};
    Reseal(s, DoQueue(s, w, q), w, x, status);
  }

  lemma QueueWritesNothing(s: Sys, w: nat, q: QueueStep, x: nat)
    ensures MayWrite(At(DoQueue(s, w, q), w), x) <= MayWrite(At(s, w), x)
  {
  }

  lemma SealedStep(s: Sys, a: Action, x: nat, status: Status)
    requires Sealed(s, x, status) && status.Terminal()
    ensures Sealed(Step(s, a), x, status)
  {
    match a {
      case Request(w, r) => SealedByRequest(s, w, r, x, status);
      case Handler(w, h) => SealedByHandler(s, w, h, x, status);
      case Queue(w, q) => SealedByQueue(s, w, q, x, status);
      case World(o) =>
        WorldFrame(s, o);
        assert forall v :: At(DoWorld(s, o), v) == At(s, v);
        assert x in DoWorld(s, o).rows ==> x in s.rows && DoWorld(s, o).rows[x] == s.rows[x];
    }
  }

  lemma {:induction false} SealedRun(s: Sys, actions: seq<Action>, x: nat, status: Status)
    requires Sealed(s, x, status) && status.Terminal()
    ensures Sealed(Run(s, actions), x, status)
    decreases |actions|
  {
    if actions != [] {
      SealedStep(s, actions[0], x, status);
      SealedRun(Step(s, actions[0]), actions[1..], x, status);
    }
  }

  /** The row keeps this status, for as long as it exists, in every continuation. */
  ghost predicate IsFinal(s: Sys, x: nat, status: Status) {
    forall actions :: var t := Run(s, actions); x in t.rows ==> t.rows[x] == status
  }

  lemma RunningWriteLands(s: Sys, w: nat, x: nat) returns (actions: seq<Action>)
    requires x in s.rows && At(s, w).Running? && At(s, w).x == x
    ensures x in Run(s, actions).rows && Run(s, actions).rows[x] == FAILED
  {
    actions := [Handler(w, Complete(ProviderError)), Handler(w, Write(false))];
    RunTwo(s, actions[0], actions[1]);
  }

  /** An actor that may write `other` can be driven to do so at once. */
  lemma StaleWriteLands(s: Sys, w: nat, x: nat, other: Status) returns (actions: seq<Action>)
    requires x in s.rows && other in MayWrite(At(s, w), x)
    ensures x in Run(s, actions).rows && Run(s, actions).rows[x] == other
  {
    var pc := At(s, w);
    match pc {
      case Seen(_, _, _) =>
        actions := [Handler(w, GiveUp), Handler(w, Write(false))];
        RunTwo(s, actions[0], actions[1]);
      case Claimed(_, _) =>
        var call := Handler(w, Call);
        RunTwo(s, call, call);
        actions := RunningWriteLands(Step(s, call), w, x);
        RunAppend(s, [call], actions);
        actions := [call] + actions;
      case Running(_, _) =>
        actions := RunningWriteLands(s, w, x);
      case Writing(_, _, _) =>
        actions := [Handler(w, Write(false))];
        RunTwo(s, actions[0], actions[0]);
      case Created(_) =>
        actions := [Request(w, Publish(NotDone)), Request(w, FailUnpublished)];
        RunTwo(s, actions[0], actions[1]);
      case Unpublished(_) =>
        actions := [Request(w, FailUnpublished)];
        RunTwo(s, actions[0], actions[0]);
      case Cancelling(_) =>
        actions := [Request(w, Cancel)];
        RunTwo(s, actions[0], actions[0]);
    }
  }

  /** A terminal status is never overwritten exactly when no actor is between its last
      read of the row and a write of something else. */
  lemma FinalExactlyWhen(s: Sys, x: nat, status: Status)
    requires x in s.issued && x in s.rows && s.rows[x] == status && status.Terminal()
    ensures IsFinal(s, x, status) <==> NoStaleWrite(s, x, status)
  {
    if NoStaleWrite(s, x, status) {
      forall actions ensures var t := Run(s, actions); x in t.rows ==> t.rows[x] == status {
        SealedRun(s, actions, x, status);
      }
    } else {
      var w :| !(MayWrite(At(s, w), x) <= {status});
      var other :| other in MayWrite(At(s, w), x) && other != status;
      var actions := StaleWriteLands(s, w, x, other);
    }
  }

  // ---------------------------------------------------------------------------
  // A cancellation while the program runs
  // ---------------------------------------------------------------------------

  /** `w` holds the claim on `x`: about to call the provider, inside the call, or back from
      it with an outcome it has not checked against the row. */
  predicate Executing(pc: Pc, x: nat) {
    (pc.Claimed? || pc.Running? || pc.Executed?) && pc.x == x
  }

  /** The provider call of `w` for `x` does not raise a provider error during the run. */
  ghost predicate ProviderReturns(s: Sys, actions: seq<Action>, w: nat, x: nat)
    decreases |actions|
  {
    actions != [] ==>
    && !(actions[0] == Handler(w, Complete(ProviderError)) && At(s, w).Running? && At(s, w).x == x)
    && ProviderReturns(Step(s, actions[0]), actions[1..], w, x)
  }

  /** Settled, but for `w`, which may still be executing. */
  ghost predicate Cancelled(s: Sys, w: nat, x: nat) {
    && x in s.issued
    && (x in s.rows ==>
          && s.rows[x] == CANCELLED
          && (forall v :: v != w ==> MayWrite(At(s, v), x) <= {CANCELLED})
          && (Executing(At(s, w), x) || MayWrite(At(s, w), x) <= {CANCELLED}))
  }

  lemma CancelledByExecuting(s: Sys, w: nat, h: HandlerStep, x: nat)
    requires x in s.rows && s.rows[x] == CANCELLED && Executing(At(s, w), x)
    requires !(h == Complete(ProviderError) && At(s, w).Running?)
    ensures var s' := DoHandler(s, w, h);
            && x in s'.rows && s'.rows[x] == CANCELLED
            && (Executing(At(s', w), x) || MayWrite(At(s', w), x) <= {CANCELLED})
  {
  }

  /** A step that settles nothing new keeps the cancellation; `w` itself keeps executing,
      moves on without a write, or crashes. */
  lemma CancelledStep(s: Sys, a: Action, w: nat, x: nat)
    requires Cancelled(s, w, x)
    requires !(a == Handler(w, Complete(ProviderError)) && At(s, w).Running? && At(s, w).x == x)
    ensures Cancelled(Step(s, a), w, x)
  {
    if x !in s.rows || MayWrite(At(s, w), x) <= {CANCELLED} {
      assert Sealed(s, x, CANCELLED);
      SealedStep(s, a, x, CANCELLED);
    } else {
      match a {
        case Request(v, r) => CancelledByRequest(s, v, r, w, x);
        case Handler(v, h) =>
          HandlerFrame(s, v, h);
          if v == w { CancelledByExecuting(s, w, h, x); } else { HandlerRow(s, v, h, x, CANCELLED); }
        case Queue(v, q) =>
          QueueFrame(s, v, q);
          QueueWritesNothing(s, v, q, x);
        case World(o) =>
          WorldFrame(s, o);
          assert forall v :: At(DoWorld(s, o), v) == At(s, v);
      }
    }
  }

  lemma CancelledByRequest(s: Sys, v: nat, r: RequestStep, w: nat, x: nat)
    requires Cancelled(s, w, x) && x in s.rows && Executing(At(s, w), x)
    ensures Cancelled(DoRequest(s, v, r), w, x)
  {
    RequestFrame(s, v, r);
    if v != w {
      assert MayWrite(At(s, v), x) <= {CANCELLED};
      assert FAILED !in MayWrite(At(s, v), x);
    }
  }

  /** A cancellation committed while the only delivery holds its claim, runs the program or
      has not yet checked the outcome against the row stays the status to the end of every
      run, through all redeliveries, unless that call of the provider raises a provider
      error (whose branch does write over it, see `RunningWriteLands`). */
  lemma {:induction false} CancellationWins(s: Sys, w: nat, x: nat, actions: seq<Action>)
    requires Cancelled(s, w, x) && ProviderReturns(s, actions, w, x)
    ensures var t := Run(s, actions); x in t.rows ==> t.rows[x] == CANCELLED
    decreases |actions|
  {
    if actions != [] {
      CancelledStep(s, actions[0], w, x);
      CancellationWins(Step(s, actions[0]), w, x, actions[1..]);
    }
  }

  /** An execution has been submitted and published, and nobody has read it. */
  ghost predicate Waiting(s: Sys) {
    && s.stream == [Entry(0, Execution(0))] && s.cursor == 0 && s.trimmed == {}
    && 0 in s.rows && s.rows[0] == QUEUED && At(s, 1) == Idle && At(s, 2) == Gone
  }

  lemma RunThree(s: Sys, a: Action, b: Action, c: Action)
    ensures Run(s, [a, b, c]) == Step(Step(Step(s, a), b), c)
  {
    RunAppend(s, [a, b], [c]);
    assert [a, b] + [c] == [a, b, c];
    RunTwo(s, a, b);
    RunTwo(Run(s, [a, b]), c, c);
  }

  lemma Submitted() returns (actions: seq<Action>)
    ensures Waiting(Run(INIT, actions))
  {
    var a, b, c := Queue(1, Start), Request(1, Submit(0)), Request(1, Publish(Done));
    actions := [a, b, c];
    RunThree(INIT, a, b, c);
    var s2 := Step(Step(INIT, a), b);
    assert At(s2, 1) == Created(0) && At(s2, 2) == Gone;
  }

  lemma ThenRead(s: Sys) returns (actions: seq<Action>)
    requires Waiting(s)
    ensures var t := Run(s, actions);
            At(t, 1) == Idle && At(t, 2) == Seen(0, 0, QUEUED) && 0 in t.rows && t.rows[0] == QUEUED
  {
    var a, b, c := Queue(2, Start), Queue(2, Fetch), Handler(2, ReadRow);
    actions := [a, b, c];
    RunThree(s, a, b, c);
    var s1 := Step(s, a);
    assert At(s1, 2) == Idle && At(s1, 1) == Idle;
    var s2 := Step(s1, b);
    assert At(s2, 2) == Fetched(0) && At(s2, 1) == Idle && s2.rows == s.rows && s2.stream == s.stream;
  }

  /** One worker has read the row of a freshly submitted execution. */
  lemma Delivered() returns (actions: seq<Action>)
    ensures var s := Run(INIT, actions);
            At(s, 1) == Idle && At(s, 2) == Seen(0, 0, QUEUED) && 0 in s.rows && s.rows[0] == QUEUED
  {
    var first := Submitted();
    var more := ThenRead(Run(INIT, first));
    RunAppend(INIT, first, more);
    actions := first + more;
  }

  lemma ThenCancelled(s: Sys) returns (actions: seq<Action>)
    requires At(s, 1) == Idle && 0 in s.rows && s.rows[0] == QUEUED
    ensures var t := Run(s, actions);
            At(t, 2) == At(s, 2) && 0 in t.rows && t.rows[0] == CANCELLED
  {
    actions := [Request(1, ReadForCancel(0)), Request(1, Cancel)];
    RunTwo(s, actions[0], actions[1]);
  }

  /** The claim that a terminal state is never overwritten fails: the failure branch
      writes FAILED over a cancellation that arrived after the row was read. */
  lemma CancellationCanLose()
    ensures exists actions, more ::
      var s, t := Run(INIT, actions), Run(Run(INIT, actions), more);
      0 in s.rows && s.rows[0] == CANCELLED && 0 in t.rows && t.rows[0] == FAILED
  {
    var before := Delivered();
    var s := Run(INIT, before);
    var cancel := ThenCancelled(s);
    RunAppend(INIT, before, cancel);
    var actions := before + cancel;
    var more := StaleWriteLands(Run(INIT, actions), 2, 0, FAILED);
    var t := Run(Run(INIT, actions), more);
    assert 0 in t.rows && t.rows[0] == FAILED;
  }
}
