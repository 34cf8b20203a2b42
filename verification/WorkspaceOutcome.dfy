/**
 What an execution becomes: from a fetched message for a QUEUED execution to the end of the
 handler, when nobody else writes its row. The endings are read off the outcomes of the
 calls, not off the program.
 */
module WorkspaceOutcome {
  import opened WorkQueue
  import opened WorkspaceProgram
  import Safety = WorkQueueSafety
  import Delivery = WorkQueueDelivery

  predicate SameRow(s: Sys, s': Sys, x: nat) {
    x in s.rows && x in s'.rows && s'.rows[x] == s.rows[x]
  }

  /** From `from` on, every step of another actor left the row of `x` as it was. */
  ghost predicate Alone(from: seq<Action>, run: seq<Action>, me: nat, x: nat)
    decreases |run|
  {
    |run| <= |from| ||
    var most, last := run[..|run| - 1], run[|run| - 1];
    && Alone(from, most, me, x)
    && (Mine(last, me) || SameRow(Run(INIT, most), Step(Run(INIT, most), last), x))
  }

  /** How the handling of a QUEUED execution ends: the status of its row, how often the
      provider was called, and whether an exception left the handler. */
  datatype End = End(status: Status, calls: nat, raised: bool)

  /** `update_execution` of a row that said `before`. */
  function Written(before: Status, status: Status, calls: nat, write: Commit): End {
    match write
    case Commits => End(status, calls, false)
    case CommitsThenRaises => End(status, calls, true)
    case RaisesFirst => End(before, calls, true)
  }

  /** A result becomes TIMED_OUT, FAILED or SUCCEEDED, in this order of precedence. */
  function Verdict(timedOut: bool, error: bool): Status {
    match (timedOut, error)
    case (true, _) => TIMED_OUT
    case (false, true) => FAILED
    case (false, false) => SUCCEEDED
  }

  function Ending(script: Script): End {
    if script.readRaises || script.workspace.LookupRaises? then End(QUEUED, 0, true)
    else if script.workspace.Missing? then Written(QUEUED, FAILED, 0, script.write)
    else if script.runtime.LookupRaises? then End(QUEUED, 0, true)
    else if script.runtime.Missing? then Written(QUEUED, FAILED, 0, script.write)
    else if script.claim.RaisesFirst? then End(QUEUED, 0, true)
    else if script.claim.CommitsThenRaises? then End(RUNNING, 0, true)
    else AfterCall(script)
  }

  function AfterCall(script: Script): End {
    match script.outcome
    case OtherError => End(RUNNING, 1, true)
    case ProviderError => Written(RUNNING, FAILED, 1, script.write)
    case Result(timedOut, error) =>
      if script.rereadRaises then End(RUNNING, 1, true)
      else Written(RUNNING, Verdict(timedOut, error), 1, script.write)
  }

  // ---------------------------------------------------------------------------
  // The stages on the way
  // ---------------------------------------------------------------------------

  function Calls(s: Sys, x: nat): nat {
    multiset(s.runs)[x]
  }

  ghost predicate NoRival(s: Sys, me: nat, x: nat) {
    forall v :: v != me && At(s, v).Claimed? ==> At(s, v).x != x
  }

  /** The worker is dealing with entry `e`. */
  predicate OnEntry(pc: Pc, e: nat) {
    (Processing(pc) || pc.Returned? || pc.Raised? || pc.Buried?) && pc.e == e
  }

  predicate RowSays(s: Sys, x: nat, status: Status, calls: nat) {
    x in s.rows && s.rows[x] == status && Calls(s, x) == calls
  }

  /** Where it is agrees with the row, the calls made and the ending to come. */
  ghost predicate Stage(s: Sys, me: nat, script: Script, e: nat, x: nat) {
    var end := Ending(script);
    match At(s, me)
    case Fetched(_) => RowSays(s, x, QUEUED, 0) && e < |s.stream| && s.stream[e].msg == Execution(x)
    case Seen(_, y, status) => y == x && status == QUEUED && RowSays(s, x, QUEUED, 0) && !script.readRaises
    case Claiming(_, y, status) =>
      && y == x && status == QUEUED && RowSays(s, x, QUEUED, 0)
      && !script.readRaises && script.workspace.Present? && script.runtime.Present?
    case Claimed(_, y) => y == x && RowSays(s, x, RUNNING, 0) && end == AfterCall(script)
    case Running(_, y) => y == x && RowSays(s, x, RUNNING, 1) && end == AfterCall(script)
    case Executed(_, y, status) =>
      && y == x && RowSays(s, x, RUNNING, 1) && end == AfterCall(script)
      && script.outcome.Result? && status == Verdict(script.outcome.timedOut, script.outcome.error)
    case Writing(_, y, status) =>
      y == x && x in s.rows && !s.rows[x].Terminal() && end == Written(s.rows[x], status, Calls(s, x), script.write)
    case Returned(_) => RowSays(s, x, end.status, end.calls) && !end.raised
    case Raised(_) => RowSays(s, x, end.status, end.calls) && end.raised
    case _ => true
  }

  /** Entry `e` has been delivered, and while the worker deals with it the stage is right. */
  ghost predicate Course(s: Sys, me: nat, script: Script, e: nat, x: nat) {
    s.cursor > e && (OnEntry(At(s, me), e) && !At(s, me).Buried? ==> Stage(s, me, script, e, x) && NoRival(s, me, x))
  }

  // ---------------------------------------------------------------------------
  // Every step keeps the course
  // ---------------------------------------------------------------------------

  lemma CallsAfter(s: Sys, s': Sys, y: nat, x: nat)
    requires s'.runs == s.runs + [y]
    ensures Calls(s', x) == Calls(s, x) + if y == x then 1 else 0
  {
  }

  /** A step of somebody else that leaves the row alone calls no provider for `x` and wins no
      claim on it. */
  lemma OtherHandler(s: Sys, v: nat, h: HandlerStep, me: nat, x: nat)
    requires v != me && NoRival(s, me, x) && SameRow(s, DoHandler(s, v, h), x)
    ensures NoRival(DoHandler(s, v, h), me, x) && Calls(DoHandler(s, v, h), x) == Calls(s, x)
  {
    var s' := DoHandler(s, v, h);
    HandlerFrame(s, v, h);
    if h.Call? && At(s, v).Claimed? {
      CallsAfter(s, s', At(s, v).x, x);
    } else {
      NoCall(s, v, h);
    }
    WonClaimWrites(s, v, h, x);
  }

  lemma NoCall(s: Sys, v: nat, h: HandlerStep)
    requires !(h.Call? && At(s, v).Claimed?)
    ensures DoHandler(s, v, h).runs == s.runs
  {
  }

  lemma WonClaimWrites(s: Sys, v: nat, h: HandlerStep, x: nat)
    requires SameRow(s, DoHandler(s, v, h), x) && (At(s, v).Claimed? ==> At(s, v).x != x)
    ensures At(DoHandler(s, v, h), v).Claimed? ==> At(DoHandler(s, v, h), v).x != x
  {
  }

  lemma OtherStep(s: Sys, a: Action, me: nat, script: Script, e: nat, x: nat)
    requires Course(s, me, script, e, x) && !Mine(a, me) && SameRow(s, Step(s, a), x)
    ensures Course(Step(s, a), me, script, e, x)
  {
    StreamOnlyGrows(s, a);
    match a {
      case Request(v, r) => RequestFrame(s, v, r);
      case Handler(v, h) =>
        HandlerFrame(s, v, h);
        if NoRival(s, me, x) { OtherHandler(s, v, h, me, x); }
      case Queue(v, q) =>
        QueueFrame(s, v, q);
        QueueMoves(s, v, q);
      case World(o) => WorldFrame(s, o);
    }
  }

  lemma QueueMoves(s: Sys, v: nat, q: QueueStep)
    ensures s.cursor <= DoQueue(s, v, q).cursor
    ensures At(DoQueue(s, v, q), v).Claimed? ==> At(DoQueue(s, v, q), v) == At(s, v)
  {
  }

  /** This worker's own prescribed step. */
  lemma MyStep(s: Sys, a: Action, me: nat, turn: Turn, e: nat, x: nat)
    requires Course(s, me, turn.script, e, x) && Mine(a, me) && Prescribed(s, me, turn, a)
    ensures Course(Step(s, a), me, turn.script, e, x)
  {
    var pc := At(s, me);
    if pc.Gone? || !OnEntry(pc, e) {
      Elsewhere(s, a, me, turn, e, x);
    } else if pc.Fetched? || pc.Seen? || pc.Claiming? {
      MyEarlyStep(s, a.handler, me, turn, e, x);
    } else if Processing(pc) {
      MyLateStep(s, a.handler, me, turn, e, x);
    }
  }

  /** Once off the entry, a worker never comes back to it: deliveries only move forward. */
  lemma Elsewhere(s: Sys, a: Action, me: nat, turn: Turn, e: nat, x: nat)
    requires s.cursor > e && !OnEntry(At(s, me), e) && Mine(a, me) && Prescribed(s, me, turn, a)
    ensures Step(s, a).cursor > e && !OnEntry(At(Step(s, a), me), e)
  {
    match a {
      case Request(_, r) => RequestFrame(s, me, r);
      case Handler(_, h) =>
        HandlerFrame(s, me, h);
        HandlerStaysOff(s, me, h, e);
      case Queue(_, q) => QueueStaysOff(s, me, q, e);
      case World(_) =>
    }
  }

  lemma HandlerStaysOff(s: Sys, w: nat, h: HandlerStep, e: nat)
    requires !OnEntry(At(s, w), e)
    ensures !OnEntry(At(DoHandler(s, w, h), w), e)
  {
  }

  lemma QueueStaysOff(s: Sys, w: nat, q: QueueStep, e: nat)
    requires s.cursor > e && !OnEntry(At(s, w), e)
    ensures DoQueue(s, w, q).cursor > e && !OnEntry(At(DoQueue(s, w, q), w), e)
  {
  }

  lemma MyEarlyStep(s: Sys, h: HandlerStep, me: nat, turn: Turn, e: nat, x: nat)
    requires Course(s, me, turn.script, e, x) && Prescribed(s, me, turn, Handler(me, h))
    requires OnEntry(At(s, me), e) && (At(s, me).Fetched? || At(s, me).Seen? || At(s, me).Claiming?)
    ensures Course(DoHandler(s, me, h), me, turn.script, e, x)
  {
    HandlerFrame(s, me, h);
    NoCall(s, me, h);
  }

  lemma MyLateStep(s: Sys, h: HandlerStep, me: nat, turn: Turn, e: nat, x: nat)
    requires Course(s, me, turn.script, e, x) && Prescribed(s, me, turn, Handler(me, h))
    requires OnEntry(At(s, me), e) && Processing(At(s, me))
    requires !At(s, me).Fetched? && !At(s, me).Seen? && !At(s, me).Claiming?
    ensures Course(DoHandler(s, me, h), me, turn.script, e, x)
  {
    HandlerFrame(s, me, h);
    if At(s, me).Claimed? {
      CallsAfter(s, DoHandler(s, me, h), x, x);
    } else {
      NoCall(s, me, h);
    }
  }

  lemma {:induction false} RunStaysOnCourse(from: seq<Action>, run: seq<Action>, me: nat, turn: Turn, e: nat, x: nat)
    requires from <= run && Obeys(from, run, me, turn) && Alone(from, run, me, x)
    requires Course(Run(INIT, from), me, turn.script, e, x)
    ensures Course(Run(INIT, run), me, turn.script, e, x)
    decreases |run|
  {
    if |run| == |from| {
      assert run == from;
    } else {
      var most, last := run[..|run| - 1], run[|run| - 1];
      RunStaysOnCourse(from, most, me, turn, e, x);
      RunAppend(INIT, most, [last]);
      RunTwo(Run(INIT, most), last, last);
      assert run == most + [last];
      if Mine(last, me) {
        MyStep(Run(INIT, most), last, me, turn, e, x);
      } else {
        OtherStep(Run(INIT, most), last, me, turn.script, e, x);
      }
    }
  }

  // ---------------------------------------------------------------------------
  // What an execution becomes
  // ---------------------------------------------------------------------------

  /** A worker has just fetched a message for an execution that is QUEUED. */
  ghost predicate FetchedQueued(s: Sys, me: nat, e: nat, x: nat) {
    At(s, me) == Fetched(e) && e < |s.stream| && s.stream[e].msg == Execution(x) && x in s.rows && s.rows[x] == QUEUED
  }

  lemma StartsOnCourse(from: seq<Action>, me: nat, script: Script, e: nat, x: nat)
    requires FetchedQueued(Run(INIT, from), me, e, x)
    ensures Course(Run(INIT, from), me, script, e, x)
  {
    var s := Run(INIT, from);
    Safety.RunKeeps(INIT, from);
    Delivery.RunKeeps(INIT, from);
    assert Delivery.PcOk(s, At(s, me));
    assert x !in s.runs;
    forall v | v != me && At(s, v).Claimed? ensures At(s, v).x != x {
      assert Safety.ClaimOk(s, At(s, v));
    }
  }

  /** When nobody else writes its row, a QUEUED execution ends exactly as its calls say. */
  lemma EndsAsItsCallsSay(from: seq<Action>, run: seq<Action>, me: nat, turn: Turn, e: nat, x: nat)
    requires FetchedQueued(Run(INIT, from), me, e, x)
    requires from <= run && Obeys(from, run, me, turn) && Alone(from, run, me, x)
    ensures var s, end := Run(INIT, run), Ending(turn.script);
            At(s, me) == Returned(e) || At(s, me) == Raised(e) ==>
              && x in s.rows && s.rows[x] == end.status && multiset(s.runs)[x] == end.calls
              && (At(s, me) == Raised(e) <==> end.raised)
  {
    StartsOnCourse(from, me, turn.script, e, x);
    RunStaysOnCourse(from, run, me, turn, e, x);
  }

  /** Every call works and commits. */
  predicate Calm(script: Script) {
    && !script.readRaises && !script.workspace.LookupRaises? && !script.runtime.LookupRaises?
    && script.claim.Commits? && !script.rereadRaises && script.write.Commits? && !script.outcome.OtherError?
  }

  /** The same in the words of the caller, with every call working: no workspace or no serving
      runtime fails the execution without a run; otherwise there is exactly one run, and the
      row says TIMED_OUT after a timeout, FAILED after an error or a provider error, and
      SUCCEEDED otherwise. */
  lemma WhatAnExecutionBecomes(from: seq<Action>, run: seq<Action>, me: nat, turn: Turn, e: nat, x: nat)
    requires FetchedQueued(Run(INIT, from), me, e, x)
    requires from <= run && Obeys(from, run, me, turn) && Alone(from, run, me, x)
    requires Calm(turn.script)
    ensures var s, script := Run(INIT, run), turn.script;
            && At(s, me) != Raised(e)
            && (At(s, me) == Returned(e) ==>
                  && x in s.rows
                  && (script.workspace.Missing? || script.runtime.Missing? ==> s.rows[x] == FAILED && x !in s.runs)
                  && (script.workspace.Present? && script.runtime.Present? ==>
                        && multiset(s.runs)[x] == 1
                        && (script.outcome.ProviderError? ==> s.rows[x] == FAILED)
                        && (script.outcome.Result? && script.outcome.timedOut ==> s.rows[x] == TIMED_OUT)
                        && (script.outcome.Result? && !script.outcome.timedOut && script.outcome.error ==> s.rows[x] == FAILED)
                        && (script.outcome.Result? && !script.outcome.timedOut && !script.outcome.error ==> s.rows[x] == SUCCEEDED)))
  {
    EndsAsItsCallsSay(from, run, me, turn, e, x);
  }

  /** A message for an execution that is gone or already settled is left alone: a normal
      return, no run, nothing written. So is one whose claim is lost. */
  lemma LosersReturn(s: Sys, w: nat, e: nat, x: nat)
    requires e < |s.stream| && s.stream[e].msg == Execution(x)
    ensures At(s, w) == Fetched(e) && (x !in s.rows || s.rows[x].Terminal()) ==>
              var t := DoHandler(s, w, ReadRow);
              At(t, w) == Returned(e) && t.rows == s.rows && t.runs == s.runs && s.stream[e].task in t.done
    ensures At(s, w).Claiming? && At(s, w).e == e && At(s, w).x == x && !(x in s.rows && s.rows[x] == QUEUED) ==>
              var t := DoHandler(s, w, Claim(false));
              At(t, w) == Returned(e) && t.rows == s.rows && t.runs == s.runs && s.stream[e].task in t.done
  {
  }

  // ---------------------------------------------------------------------------
  // For the class
  // ---------------------------------------------------------------------------

  /** The handler that started at `from` and has just ended served its execution, if nobody
      else wrote its row meanwhile. */
  ghost predicate ServedAlone(from: seq<Action>, run: seq<Action>, me: nat, turn: Turn, e: nat, raised: bool) {
    forall x {:trigger Alone(from, run, me, x)} :: FetchedQueued(Run(INIT, from), me, e, x) && Alone(from, run, me, x) ==>
      var s, end := Run(INIT, run), Ending(turn.script);
      x in s.rows && s.rows[x] == end.status && multiset(s.runs)[x] == end.calls && raised == end.raised
  }

  lemma Serves(from: seq<Action>, run: seq<Action>, s: Sys, me: nat, turn: Turn, e: nat, raised: bool)
    requires Follows(from, run, me, turn) && Reaches(run, s) && At(s, me) == if raised then Raised(e) else Returned(e)
    ensures ServedAlone(from, run, me, turn, e, raised)
  {
    assert Same(run, run);
    forall x {:trigger Alone(from, run, me, x)} | FetchedQueued(Run(INIT, from), me, e, x) && Alone(from, run, me, x)
      ensures var s, end := Run(INIT, run), Ending(turn.script);
              x in s.rows && s.rows[x] == end.status && multiset(s.runs)[x] == end.calls && raised == end.raised
    {
      EndsAsItsCallsSay(from, run, me, turn, e, x);
    }
  }
}
