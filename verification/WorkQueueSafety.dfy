/** At-most-once execution: what every interleaving of the work queue keeps. */
module WorkQueueSafety {
  import opened WorkQueue

  /** The execution was created and its row no longer says QUEUED. */
  predicate Spent(s: Sys, x: nat) {
    x in s.issued && !(x in s.rows && s.rows[x].QUEUED?)
  }

  predicate ClaimOk(s: Sys, pc: Pc) {
    match pc
    case Seen(_, x, status) => x in s.issued && (status.QUEUED? || Spent(s, x))
    case Claiming(_, x, status) => x in s.issued && (status.QUEUED? || Spent(s, x))
    case Claimed(_, x) => Spent(s, x) && x !in s.runs
    case Running(_, x) => x in s.runs
    case Executed(_, _, status) => !status.QUEUED?
    case Writing(_, _, status) => !status.QUEUED?
    case _ => true
  }

  ghost predicate RowsOk(s: Sys) {
    && (forall x :: x in s.rows ==> x in s.issued)
    && (forall x :: x in s.runs ==> Spent(s, x))
    && (forall i, j :: 0 <= i < j < |s.runs| ==> s.runs[i] != s.runs[j])
  }

  ghost predicate ActorsOk(s: Sys) {
    forall w :: ClaimOk(s, At(s, w))
  }

  /** No two actors hold a won claim on the same execution. */
  ghost predicate OneClaim(s: Sys) {
    forall v, w :: v != w && At(s, v).Claimed? && At(s, w).Claimed? ==> At(s, v).x != At(s, w).x
  }

  ghost predicate Inv(s: Sys) {
    RowsOk(s) && ActorsOk(s) && OneClaim(s)
  }

  /** A step in which only `w` moves, to a program counter that holds no claim (or not at
      all), nothing runs, and no row returns to QUEUED. */
  ghost predicate Quiet(s: Sys, s': Sys, w: nat) {
    && s'.runs == s.runs && s.issued <= s'.issued
    && (forall x :: Spent(s, x) ==> Spent(s', x))
    && (forall x :: x in s'.rows ==> x in s'.issued)
    && OnlyMoved(s, s', w)
    && (At(s', w) == At(s, w) || (!At(s', w).Claimed? && ClaimOk(s', At(s', w))))
  }

  lemma QuietKeeps(s: Sys, s': Sys, w: nat)
    requires Inv(s) && Quiet(s, s', w)
    ensures Inv(s')
  {
    assert ClaimOk(s, At(s, w));
  }

  lemma RequestKeeps(s: Sys, w: nat, r: RequestStep)
    requires Inv(s)
    ensures Inv(DoRequest(s, w, r))
  {
    QuietKeeps(s, DoRequest(s, w, r), w);
  }

  lemma QueueKeeps(s: Sys, w: nat, q: QueueStep)
    requires Inv(s)
    ensures Inv(DoQueue(s, w, q))
  {
    QueueFrame(s, w, q);
    QuietKeeps(s, DoQueue(s, w, q), w);
  }

  lemma WorldKeeps(s: Sys, o: WorldStep)
    requires Inv(s)
    ensures Inv(DoWorld(s, o))
  {
    QuietKeeps(s, DoWorld(s, o), 0);
  }

  lemma ClaimKeeps(s: Sys, w: nat, raises: bool)
    requires Inv(s)
    ensures Inv(DoHandler(s, w, Claim(raises)))
  {
    var s' := DoHandler(s, w, Claim(raises));
    assert ClaimOk(s, At(s, w));
    if At(s', w).Claimed? && !At(s, w).Claimed? {
      assert !Spent(s, At(s, w).x);
      assert OnlyMoved(s, s', w);
      assert forall y :: Spent(s, y) ==> Spent(s', y);
    } else {
      QuietKeeps(s, s', w);
    }
  }

  lemma CallKeeps(s: Sys, w: nat)
    requires Inv(s)
    ensures Inv(DoHandler(s, w, Call))
  {
    var s' := DoHandler(s, w, Call);
    assert ClaimOk(s, At(s, w));
    if s' != s {
      assert OnlyMoved(s, s', w);
      assert forall y :: Spent(s, y) <==> Spent(s', y);
    }
  }

  lemma HandlerKeeps(s: Sys, w: nat, h: HandlerStep)
    requires Inv(s)
    ensures Inv(DoHandler(s, w, h))
  {
    if h.Claim? {
      ClaimKeeps(s, w, h.raises);
    } else if h.Call? {
      CallKeeps(s, w);
    } else {
      HandlerFrame(s, w, h);
      assert ClaimOk(s, At(s, w));
      QuietHandler(s, w, h);
      QuietKeeps(s, DoHandler(s, w, h), w);
    }
  }

  lemma QuietHandler(s: Sys, w: nat, h: HandlerStep)
    requires RowsOk(s) && ClaimOk(s, At(s, w)) && !h.Claim? && !h.Call?
    requires QueueUntouched(s, DoHandler(s, w, h), w)
    ensures Quiet(s, DoHandler(s, w, h), w)
  {
  }

  lemma StepKeeps(s: Sys, a: Action)
    requires Inv(s)
    ensures Inv(Step(s, a))
  {
    match a
    case Request(w, r) => RequestKeeps(s, w, r);
    case Handler(w, h) => HandlerKeeps(s, w, h);
    case Queue(w, q) => QueueKeeps(s, w, q);
    case World(o) => WorldKeeps(s, o);
  }

  lemma {:induction false} RunKeeps(s: Sys, actions: seq<Action>)
    requires Inv(s)
    ensures Inv(Run(s, actions))
    decreases |actions|
  {
    if actions != [] {
      StepKeeps(s, actions[0]);
      RunKeeps(Step(s, actions[0]), actions[1..]);
    }
  }

  lemma {:induction false} NoDuplicates(xs: seq<nat>, x: nat)
    requires forall i, j :: 0 <= i < j < |xs| ==> xs[i] != xs[j]
    ensures multiset(xs)[x] <= 1
  {
    if xs != [] {
      var most := xs[..|xs| - 1];
      assert xs == most + [xs[|xs| - 1]];
      NoDuplicates(most, x);
      if xs[|xs| - 1] == x {
        assert x !in most;
      }
    }
  }

  /** For any number of workers and any interleaving of redeliveries, re-queues, cancels,
      failures and crashes, the provider is called at most once for each execution; a call
      cut off by a crash counts. */
  lemma AtMostOnce(actions: seq<Action>, x: nat)
    ensures multiset(Run(INIT, actions).runs)[x] <= 1
  {
    RunKeeps(INIT, actions);
    NoDuplicates(Run(INIT, actions).runs, x);
  }

  /** The entity's own transition check never fires after a won claim: the row was read
      as QUEUED, because no step ever writes QUEUED again. */
  lemma WonClaimStarts(actions: seq<Action>, w: nat)
    ensures var s := Run(INIT, actions);
            At(s, w).Claiming? && At(s, w).x in s.rows && s.rows[At(s, w).x].QUEUED?
            ==> At(DoHandler(s, w, Claim(false)), w) == Claimed(At(s, w).e, At(s, w).x)
  {
    RunKeeps(INIT, actions);
    var s := Run(INIT, actions);
    assert ClaimOk(s, At(s, w));
  }

  // ---------------------------------------------------------------------------
  // Abandoned runs
  // ---------------------------------------------------------------------------

  /** No longer QUEUED, and nobody holds a won claim on it. */
  ghost predicate Abandoned(s: Sys, x: nat) {
    Spent(s, x) && forall w :: At(s, w).Claimed? ==> At(s, w).x != x
  }

  /** What a handler step can do to claims, runs and QUEUED rows. */
  lemma HandlerClaims(s: Sys, w: nat, h: HandlerStep, x: nat)
    requires ClaimOk(s, At(s, w)) && Spent(s, x)
    ensures var s' := DoHandler(s, w, h);
            && Spent(s', x)
            && (At(s', w).Claimed? && At(s', w) != At(s, w) ==> At(s', w).x != x)
            && (s'.runs == s.runs || (At(s, w).Claimed? && s'.runs == s.runs + [At(s, w).x]))
  {
  }

  lemma AbandonedByHandler(s: Sys, s': Sys, w: nat, h: HandlerStep, x: nat)
    requires ActorsOk(s) && Abandoned(s, x) && s' == DoHandler(s, w, h)
    ensures Abandoned(s', x)
    ensures multiset(s'.runs)[x] == multiset(s.runs)[x]
  {
    HandlerFrame(s, w, h);
    assert ClaimOk(s, At(s, w));
    HandlerClaims(s, w, h, x);
    assert At(s, w).Claimed? ==> At(s, w).x != x;
  }

  lemma AbandonedByOthers(s: Sys, s': Sys, w: nat, x: nat)
    requires Abandoned(s, x) && OnlyMoved(s, s', w) && Spent(s', x)
    requires At(s', w) == At(s, w) || !At(s', w).Claimed?
    ensures Abandoned(s', x)
  {
    assert At(s, w).Claimed? ==> At(s, w).x != x;
  }

  lemma AbandonedStep(s: Sys, a: Action, x: nat)
    requires ActorsOk(s) && Abandoned(s, x)
    ensures Abandoned(Step(s, a), x)
    ensures multiset(Step(s, a).runs)[x] == multiset(s.runs)[x]
  {
    match a {
      case Request(w, r) =>
        RequestFrame(s, w, r);
        AbandonedByOthers(s, DoRequest(s, w, r), w, x);
      case Handler(w, h) =>
        AbandonedByHandler(s, DoHandler(s, w, h), w, h, x);
      case Queue(w, q) =>
        QueueFrame(s, w, q);
        AbandonedByOthers(s, DoQueue(s, w, q), w, x);
      case World(o) =>
        WorldFrame(s, o);
        AbandonedByOthers(s, DoWorld(s, o), 0, x);
    }
  }

  /** An execution that has left QUEUED and whose claim holder died is never executed
      again: redeliveries of its message lose the claim and are acknowledged. */
  lemma {:induction false} NeverExecutedAgain(s: Sys, actions: seq<Action>, x: nat)
    requires Inv(s) && Abandoned(s, x)
    ensures Abandoned(Run(s, actions), x)
    ensures multiset(Run(s, actions).runs)[x] == multiset(s.runs)[x]
    decreases |actions|
  {
    if actions != [] {
      AbandonedStep(s, actions[0], x);
      StepKeeps(s, actions[0]);
      NeverExecutedAgain(Step(s, actions[0]), actions[1..], x);
    }
  }
}
