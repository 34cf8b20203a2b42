/**
 The workspace worker as code: the loop, the execution handler, the settling of a
 message and the stale sweep. Every method performs a run of the `WorkQueue` system, with
 arbitrary steps of other actors at each await, so the results about all runs hold of it.
 */
module WorkspaceWorker {
  import opened WorkQueue
  import opened WorkspaceProgram
  import Delivery = WorkQueueDelivery
  import Messages = WorkQueueMessages
  import Safety = WorkQueueSafety
  import opened WorkspaceOutcome

  /** Whether the handler is over, and if so whether by an exception. */
  datatype Next = Over(raised: bool) | Continue

  class Worker {
    const me: nat
    // shared with every other actor
    var stream: seq<Entry>
    var cursor: nat
    var pending: map<nat, nat>
    var trimmed: set<nat>
    var dead: set<nat>
    var rows: map<nat, Status>
    // the worker's own
    var idleSweeps: nat
    ghost var trace: seq<Action>
    ghost var sys: Sys       // the state the run leads to
    ghost var copies: Tally  // copies this worker has put on the stream

    ghost predicate Valid()
      reads this
    {
      && sys.stream == stream && sys.cursor == cursor && sys.pending == pending
      && sys.trimmed == trimmed && sys.dead == dead && sys.rows == rows
      && Reaches(trace, sys) && Copied(trace, me, copies)
    }

    ghost function Pc(): WorkQueue.Pc
      reads this
    {
      At(sys, me)
    }

    /** Valid, and since `since` this worker has done what its program prescribes. */
    ghost predicate On(since: seq<Action>, turn: Turn)
      reads this
    {
      Valid() && Follows(since, trace, me, turn)
    }

    constructor (id: nat)
      ensures me == id && Valid() && Pc() == Idle && idleSweeps == 0 && copies == Tally(0, 0)
    {
      me := id;
      stream, cursor, pending, trimmed, dead, rows := [], 0, map[], {}, {}, map[];
      idleSweeps, copies := 0, Tally(0, 0);
      trace := [Queue(id, Start)];
      sys := Step(INIT, Queue(id, Start));
      new;
      OneMore([], INIT, Tally(0, 0), Queue(id, Start), id);
      assert [] + trace == trace;
    }

    /** An await. Callers know only that other actors took some steps. */
    method Await(ghost since: seq<Action>, ghost turn: Turn)
      requires On(since, turn)
      modifies this
      ensures On(since, turn) && OthersRan(old(trace), trace, me)
      ensures Pc() == old(Pc()) && idleSweeps == old(idleSweeps) && copies == old(copies)
      ensures old(stream) <= stream
    {
    }

    /** Records one of this worker's own steps. */
    ghost method Did(a: Action, since: seq<Action>, turn: Turn)
      requires Follows(since, trace, me, turn) && Reaches(trace, sys) && Copied(trace, me, copies)
      requires Prescribed(sys, me, turn, a) && Mine(a, me)
      modifies this`trace, this`sys, this`copies
      ensures trace == old(trace) + [a] && sys == Step(old(sys), a)
      ensures copies == Noted(old(copies), old(sys), a)
      ensures Follows(since, trace, me, turn) && Reaches(trace, sys) && Copied(trace, me, copies)
    {
      OneMore(trace, sys, copies, a, me);
      OneMoreObeys(since, trace, sys, a, me, turn);
      copies := Noted(copies, sys, a);
      trace, sys := trace + [a], Step(sys, a);
    }

    method Fetch(ghost turn: Turn, ghost since: seq<Action>) returns (work: bool, e: nat)
      requires On(since, turn) && Pc() == Idle
      modifies this
      ensures On(since, turn) && idleSweeps == old(idleSweeps)
      ensures work ==> Pc() == Fetched(e) && e < |stream| && cursor == e + 1 && e !in trimmed
      ensures !work ==> Pc() == Idle && cursor >= |stream|
    {
      Await(since, turn);
      work, e := false, 0;
      while cursor < |stream| && !work
        invariant On(since, turn) && idleSweeps == old(idleSweeps)
        invariant if work then Pc() == Fetched(e) && e < |stream| && cursor == e + 1 && e !in trimmed else Pc() == Idle
        decreases |stream| - cursor
      {
        work, e := FetchOne(turn, since);
      }
    }

    /** The next undelivered entry, if it has not been deleted. */
    method FetchOne(ghost turn: Turn, ghost since: seq<Action>) returns (work: bool, e: nat)
      requires On(since, turn) && Pc() == Idle && cursor < |stream|
      modifies this
      ensures On(since, turn) && idleSweeps == old(idleSweeps) && stream == old(stream) && trimmed == old(trimmed)
      ensures e == old(cursor) && cursor == e + 1 && work == (e !in trimmed)
      ensures Pc() == if work then Fetched(e) else Idle
      ensures work ==> e in pending && pending[e] == me
    {
      Did(Queue(me, QueueStep.Fetch), since, turn);
      work, e := cursor !in trimmed, cursor;
      if work {
        pending := pending[cursor := me];
      }
      cursor := cursor + 1;
    }

    /** An exception leaves the handler. */
    method RaiseOut(e: nat, ghost turn: Turn, ghost since: seq<Action>)
      requires On(since, turn) && Processing(Pc()) && Pc().e == e
      requires NextStep(sys, me, turn) == Handler(me, Raise)
      modifies this
      ensures On(since, turn) && idleSweeps == old(idleSweeps)
      ensures Pc() == Raised(e)
    {
      Did(Handler(me, Raise), since, turn);
    }

    /** `get_execution` and the two early returns. */
    method ReadStatus(e: nat, x: nat, turn: Turn, ghost since: seq<Action>) returns (next: Next)
      requires On(since, turn) && Pc() == Fetched(e) && e < |stream| && stream[e].msg == Execution(x)
      modifies this
      ensures On(since, turn) && idleSweeps == old(idleSweeps)
      ensures next.Over? ==> Pc() == if next.raised then Raised(e) else Returned(e)
      ensures next.Continue? ==> Pc().Seen? && Pc().e == e && Pc().x == x
    {
      Await(since, turn);
      if turn.script.readRaises {
        RaiseOut(e, turn, since);
        return Over(true);
      }
      Did(Handler(me, ReadRow), since, turn);
      if x !in rows || rows[x].Terminal() {
        return Over(false);
      }
      return Continue;
    }

    /** `get_workspace` and `start_runtime`. */
    method BringUp(e: nat, x: nat, turn: Turn, ghost since: seq<Action>) returns (next: Next)
      requires On(since, turn) && Pc().Seen? && Pc().e == e && Pc().x == x
      modifies this
      ensures On(since, turn) && idleSweeps == old(idleSweeps)
      ensures next.Over? ==> Pc() == if next.raised then Raised(e) else Returned(e)
      ensures next.Continue? ==> Pc().Claiming? && Pc().e == e && Pc().x == x
    {
      Await(since, turn);
      var workspace, runtime := turn.script.workspace, turn.script.runtime;
      if workspace.LookupRaises? || (workspace.Present? && runtime.LookupRaises?) {
        RaiseOut(e, turn, since);
        return Over(true);
      }
      if workspace.Missing? || runtime.Missing? {
        Did(Handler(me, GiveUp), since, turn);
        var raised := Update(e, x, FAILED, turn, since);
        return Over(raised);
      }
      Did(Handler(me, RuntimeUp), since, turn);
      return Continue;
    }

    /** `claim_execution`, and `execution.start`, which never refuses. */
    method TryClaim(e: nat, x: nat, turn: Turn, ghost since: seq<Action>) returns (next: Next)
      requires On(since, turn) && Pc().Claiming? && Pc().e == e && Pc().x == x
      modifies this
      ensures On(since, turn) && idleSweeps == old(idleSweeps)
      ensures next.Over? ==> Pc() == if next.raised then Raised(e) else Returned(e)
      ensures next.Continue? ==> Pc() == Claimed(e, x)
    {
      Await(since, turn);
      if turn.script.claim.RaisesFirst? {
        RaiseOut(e, turn, since);
        return Over(true);
      }
      WonStarts(trace, sys, me);
      var won, raises := x in rows && rows[x].QUEUED?, turn.script.claim.CommitsThenRaises?;
      Did(Handler(me, Claim(raises)), since, turn);
      if won {
        rows := rows[x := RUNNING];
      }
      return if won && !raises then Continue else Over(raises);
    }

    /** `provider.execute`: the call is on record before it comes back, so interference and
        crashes may fall inside it. */
    method CallProvider(e: nat, x: nat, turn: Turn, ghost since: seq<Action>) returns (next: Next, status: Status)
      requires On(since, turn) && Pc() == Claimed(e, x)
      modifies this
      ensures On(since, turn) && idleSweeps == old(idleSweeps)
      ensures next.Over? ==> Pc() == if next.raised then Raised(e) else Returned(e)
      ensures next.Continue? ==> Pc() == Executed(e, x, status) && turn.script.outcome.Result?
      ensures next.Continue? ==> (status == TIMED_OUT <==> turn.script.outcome.timedOut)
      ensures next.Continue? && !turn.script.outcome.timedOut ==> status == if turn.script.outcome.error then FAILED else SUCCEEDED
    {
      EnterProvider(e, x, turn, since);
      Await(since, turn);
      status := FAILED;
      match turn.script.outcome {
        case OtherError =>
          Did(Handler(me, Complete(OtherError)), since, turn);
          next := Over(true);
        case ProviderError =>
          Did(Handler(me, Complete(ProviderError)), since, turn);
          var raised := Update(e, x, FAILED, turn, since);
          next := Over(raised);
        case Result(timedOut, error) =>
          if timedOut {
            status := TIMED_OUT;
          } else if error {
            status := FAILED;
          } else {
            status := SUCCEEDED;
          }
          Did(Handler(me, Complete(turn.script.outcome)), since, turn);
          next := Continue;
      }
    }

    method EnterProvider(e: nat, x: nat, ghost turn: Turn, ghost since: seq<Action>)
      requires On(since, turn) && Pc() == Claimed(e, x)
      modifies this
      ensures On(since, turn) && idleSweeps == old(idleSweeps)
      ensures Pc() == Running(e, x) && sys.runs == old(sys.runs) + [x]
    {
      Did(Handler(me, Call), since, turn);
    }

    /** The re-read that lets a cancellation win. */
    method Recheck(e: nat, x: nat, status: Status, turn: Turn, ghost since: seq<Action>) returns (next: Next)
      requires On(since, turn) && Pc() == Executed(e, x, status)
      modifies this
      ensures On(since, turn) && idleSweeps == old(idleSweeps)
      ensures next.Over? ==> Pc() == if next.raised then Raised(e) else Returned(e)
      ensures next.Continue? ==> Pc() == Writing(e, x, status)
    {
      Await(since, turn);
      if turn.script.rereadRaises {
        RaiseOut(e, turn, since);
        return Over(true);
      }
      Did(Handler(me, Reread), since, turn);
      if x in rows && rows[x].Terminal() {
        return Over(false);
      }
      return Continue;
    }

    /** `handle_execution`; `raised` says whether an exception left it. If nobody else writes
        the row of its execution meanwhile, it ends as its calls say. */
    method HandleExecution(e: nat, turn: Turn, ghost since: seq<Action>) returns (raised: bool)
      requires On(since, turn) && Pc() == Fetched(e) && e < |stream| && !stream[e].msg.Snapshot?
      requires since == trace
      modifies this
      ensures On(since, turn) && idleSweeps == old(idleSweeps)
      ensures Pc() == if raised then Raised(e) else Returned(e)
      ensures ServedAlone(since, trace, me, turn, e, raised)
      ensures old(stream[e]).msg.Malformed? ==> raised
    {
      raised := RunHandler(e, turn, since);
      Serves(since, trace, sys, me, turn, e, raised);
    }

    /** The body of `handle_execution`. */
    method RunHandler(e: nat, turn: Turn, ghost since: seq<Action>) returns (raised: bool)
      requires On(since, turn) && Pc() == Fetched(e) && e < |stream| && !stream[e].msg.Snapshot?
      modifies this
      ensures On(since, turn) && idleSweeps == old(idleSweeps)
      ensures Pc() == if raised then Raised(e) else Returned(e)
      ensures old(stream[e]).msg.Malformed? ==> raised
    {
      if !stream[e].msg.Execution? {
        RaiseOut(e, turn, since);
        return true;
      }
      var x := stream[e].msg.x;
      var next := ReadStatus(e, x, turn, since);
      if next.Over? {
        return next.raised;
      }
      next := BringUp(e, x, turn, since);
      if next.Over? {
        return next.raised;
      }
      next := TryClaim(e, x, turn, since);
      if next.Over? {
        return next.raised;
      }
      raised := RunClaimed(e, x, turn, since);
    }

    /** `handle_execution` after a won claim. */
    method RunClaimed(e: nat, x: nat, turn: Turn, ghost since: seq<Action>) returns (raised: bool)
      requires On(since, turn) && Pc() == Claimed(e, x)
      modifies this
      ensures On(since, turn) && idleSweeps == old(idleSweeps)
      ensures Pc() == if raised then Raised(e) else Returned(e)
    {
      var next, status := CallProvider(e, x, turn, since);
      if next.Over? {
        return next.raised;
      }
      next := Recheck(e, x, status, turn, since);
      if next.Over? {
        return next.raised;
      }
      raised := Update(e, x, status, turn, since);
    }

    /** `update_execution` and the return after it. */
    method Update(e: nat, x: nat, status: Status, turn: Turn, ghost since: seq<Action>) returns (raised: bool)
      requires On(since, turn) && Pc() == Writing(e, x, status)
      modifies this
      ensures On(since, turn) && idleSweeps == old(idleSweeps)
      ensures Pc() == if raised then Raised(e) else Returned(e)
    {
      Await(since, turn);
      if turn.script.write.RaisesFirst? {
        RaiseOut(e, turn, since);
        return true;
      }
      raised := turn.script.write.CommitsThenRaises?;
      Did(Handler(me, Write(raised)), since, turn);
      if x in rows {
        rows := rows[x := status];
      }
    }

    /** `fail`: the dead letter first, then the acknowledgement, neither stopping the other. */
    method Fail(e: nat, turn: Turn, ghost since: seq<Action>)
      requires On(since, turn) && Pc() == Raised(e)
      modifies this
      ensures On(since, turn) && idleSweeps == old(idleSweeps)
      ensures Pc() == Idle
      ensures !turn.ack.NotDone? ==> e !in pending
    {
      DeadLetter(e, turn, since);
      AckFailed(e, turn, since);
    }

    method AckFailed(e: nat, turn: Turn, ghost since: seq<Action>)
      requires On(since, turn) && Pc() == Buried(e)
      modifies this
      ensures On(since, turn) && idleSweeps == old(idleSweeps)
      ensures Pc() == Idle
      ensures !turn.ack.NotDone? ==> e !in pending
    {
      Await(since, turn);
      var ok := !turn.ack.NotDone?;
      if ok {
        pending := pending - {e};
      }
      Did(Queue(me, BuryAck(ok)), since, turn);
    }

    method DeadLetter(e: nat, turn: Turn, ghost since: seq<Action>)
      requires On(since, turn) && Pc() == Raised(e)
      modifies this
      ensures On(since, turn) && idleSweeps == old(idleSweeps)
      ensures Pc() == Buried(e)
      ensures turn.deadLetterOk ==> Task(e) in dead
    {
      Await(since, turn);
      if turn.deadLetterOk {
        dead := dead + {Task(e)};
      }
      Did(Queue(me, Bury(turn.deadLetterOk)), since, turn);
    }

    function Task(e: nat): nat
      reads this
    {
      if e < |stream| then stream[e].task else 0
    }

    /** `_handle`: process, then settle. A failing acknowledge ends the worker. */
    method Handle(e: nat, turn: Turn, ghost since: seq<Action>) returns (alive: bool)
      requires On(since, turn) && Pc() == Fetched(e) && e < |stream|
      modifies this
      ensures On(since, turn) && idleSweeps == old(idleSweeps)
      ensures Pc() == if alive then Idle else Gone
      ensures !turn.ack.NotDone? ==> e !in pending
    {
      var raised := Process(e, turn, since);
      if raised {
        Fail(e, turn, since);
        return true;
      }
      Await(since, turn);
      if !turn.ack.NotDone? {
        pending := pending - {e};
      }
      Did(Queue(me, Ack(turn.ack)), since, turn);
      return turn.ack.Done?;
    }

    /** `process_work`. */
    method Process(e: nat, turn: Turn, ghost since: seq<Action>) returns (raised: bool)
      requires On(since, turn) && Pc() == Fetched(e) && e < |stream|
      modifies this
      ensures On(since, turn) && idleSweeps == old(idleSweeps)
      ensures Pc() == if raised then Raised(e) else Returned(e)
      ensures old(stream[e]).msg.Snapshot? ==> raised == !turn.snapshotOk
      ensures old(stream[e]).msg.Malformed? ==> raised
    {
      if stream[e].msg.Snapshot? {
        Await(since, turn);
        Did(Handler(me, SnapshotDone(turn.snapshotOk)), since, turn);
        return !turn.snapshotOk;
      }
      ghost var begun := trace;
      assert Follows(begun, trace, me, turn);
      raised := HandleExecution(e, turn, begun);
      FollowsChain(since, begun, trace, me, turn);
    }

    /** Publishes a copy of a claimed entry, unless the entry was deleted. */
    method PublishCopy(e: nat, rest: seq<nat>, sent: Sent, ghost turn: Turn, ghost since: seq<Action>)
      returns (published: bool, skipped: bool)
      requires On(since, turn) && Pc() == Sweeping([e] + rest)
      requires |rest| < |turn.ok| && sent == turn.ok[|turn.ok| - |rest| - 1].0
      modifies this
      ensures On(since, turn) && idleSweeps == old(idleSweeps)
      ensures Pc() == if skipped then Sweeping(rest) else Requeued(e, rest)
      ensures old(trace) <= trace && old(stream) <= stream
      ensures copies.counted == old(copies).counted + if published then 1 else 0
      ensures copies.uncounted <= old(copies).uncounted + if sent.DoneThenRaises? then 1 else 0
      ensures published || (skipped && sent.DoneThenRaises?) ==>
                e < |stream| - 1 && |old(stream)| < |stream| && stream[|stream| - 1] == stream[e]
    {
      assert ([e] + rest)[0] == e && ([e] + rest)[1..] == rest;
      Await(since, turn);
      SweptExists(trace, sys, me);
      Did(Queue(me, Requeue(sent)), since, turn);
      if e !in trimmed && !sent.NotDone? {
        stream := stream + [stream[e]];
      }
      published, skipped := sent.Done? && e !in trimmed, !sent.Done? && e !in trimmed;
    }

    /** One claimed entry: publish a copy, then acknowledge the original. */
    method RequeueOne(e: nat, rest: seq<nat>, ok: (Sent, bool), ghost turn: Turn, ghost since: seq<Action>)
      returns (counted: bool)
      requires On(since, turn) && Pc() == Sweeping([e] + rest)
      requires |rest| < |turn.ok| && ok == turn.ok[|turn.ok| - |rest| - 1]
      modifies this
      ensures On(since, turn) && idleSweeps == old(idleSweeps)
      ensures Pc() == Sweeping(rest)
      ensures old(trace) <= trace
      ensures copies.counted == old(copies).counted + if counted then 1 else 0
      ensures copies.uncounted <= old(copies).uncounted + if ok.0.DoneThenRaises? then 1 else 0
      ensures counted ==> e < |stream| && exists i :: |old(stream)| <= i < |stream| && stream[i] == stream[e]
    {
      var skipped;
      counted, skipped := PublishCopy(e, rest, ok.0, turn, since);
      ghost var copy := |stream| - 1;
      if !skipped {
        AckOriginal(e, rest, ok.1, turn, since);
      }
      assert counted ==> stream[copy] == stream[e];
    }

    /** `_safe_ack` of a claimed entry. */
    method AckOriginal(e: nat, rest: seq<nat>, ok: bool, ghost turn: Turn, ghost since: seq<Action>)
      requires On(since, turn) && Pc() == Requeued(e, rest)
      requires |rest| < |turn.ok| && ok == turn.ok[|turn.ok| - |rest| - 1].1
      modifies this
      ensures On(since, turn) && idleSweeps == old(idleSweeps)
      ensures Pc() == Sweeping(rest)
      ensures ok ==> e !in pending
      ensures old(trace) <= trace && copies == old(copies) && old(stream) <= stream
    {
      Await(since, turn);
      if ok {
        pending := pending - {e};
      }
      Did(Queue(me, RequeueAck(ok)), since, turn);
    }

    /** XAUTOCLAIM. */
    method ClaimStale(turn: Turn, ghost since: seq<Action>)
      requires On(since, turn) && Pc() == Idle
      requires forall i :: 0 <= i < |turn.stale| ==> turn.stale[i] in pending
      modifies this
      ensures On(since, turn) && idleSweeps == old(idleSweeps)
      ensures Pc() == Sweeping(turn.stale) && trace == old(trace) + [Queue(me, Sweep(turn.stale))]
      ensures copies == old(copies)
      ensures forall i :: 0 <= i < |turn.stale| ==> turn.stale[i] in pending && pending[turn.stale[i]] == me
    {
      Did(Queue(me, Sweep(turn.stale)), since, turn);
      pending := Reassign(pending, turn.stale, me);
    }

    /** The loop over the claimed entries. */
    method RequeueAll(turn: Turn, ghost since: seq<Action>) returns (requeued: nat)
      requires On(since, turn) && Pc() == Sweeping(turn.stale) && |turn.ok| == |turn.stale|
      modifies this
      ensures On(since, turn) && idleSweeps == old(idleSweeps)
      ensures Pc() == Sweeping([]) && old(trace) <= trace
      ensures copies.counted == old(copies).counted + requeued
      ensures copies.uncounted <= old(copies).uncounted + LostReplies(turn.ok)
    {
      requeued := 0;
      var i, todo := 0, turn.stale;
      while todo != []
        invariant On(since, turn) && idleSweeps == old(idleSweeps)
        invariant 0 <= i && i + |todo| == |turn.ok|
        invariant Pc() == Sweeping(todo) && old(trace) <= trace
        invariant copies.counted == old(copies).counted + requeued
        invariant copies.uncounted <= old(copies).uncounted + LostReplies(turn.ok[..i])
        decreases |todo|
      {
        assert todo == [todo[0]] + todo[1..];
        assert turn.ok[..i + 1][..i] == turn.ok[..i];
        var counted := RequeueOne(todo[0], todo[1..], turn.ok[i], turn, since);
        if counted {
          requeued := requeued + 1;
        }
        i, todo := i + 1, todo[1..];
      }
      assert turn.ok[..i] == turn.ok;
    }

    /** `reclaim_stale`: every claimed entry is published again before it is acknowledged. The
        result is exactly the number of publishes that returned; the only copies beyond that
        are of publishes whose reply was lost. */
    method ReclaimStale(turn: Turn, ghost since: seq<Action>) returns (requeued: nat)
      requires On(since, turn) && Pc() == Idle && |turn.ok| == |turn.stale|
      requires forall i :: 0 <= i < |turn.stale| ==> turn.stale[i] in pending
      modifies this
      ensures On(since, turn) && idleSweeps == old(idleSweeps)
      ensures Pc() == Idle
      ensures old(trace) + [Queue(me, Sweep(turn.stale))] <= trace
      ensures copies.counted == old(copies).counted + requeued
      ensures copies.uncounted <= old(copies).uncounted + LostReplies(turn.ok)
      ensures Messages.Carries(sys)
    {
      ClaimStale(turn, since);
      requeued := RequeueAll(turn, since);
      Did(Queue(me, Requeue(NotDone)), since, turn);
      SweptExists(trace, sys, me);
    }

    /** `_maybe_sweep_stale`: every thirtieth idle fetch sweeps. Entries that are no longer
        pending cannot be claimed, so such a sweep comes to nothing. */
    method MaybeSweep(turn: Turn, ghost since: seq<Action>)
      requires On(since, turn) && Pc() == Idle && |turn.ok| == |turn.stale|
      modifies this
      ensures On(since, turn) && Pc() == Idle
      ensures idleSweeps == old(idleSweeps) + 1
      ensures if idleSweeps % 30 == 0 && forall i :: 0 <= i < |turn.stale| ==> turn.stale[i] in old(pending)
              then old(trace) + [Queue(me, Sweep(turn.stale))] <= trace else trace == old(trace)
    {
      idleSweeps := idleSweeps + 1;
      if idleSweeps % 30 == 0 && forall i :: 0 <= i < |turn.stale| ==> turn.stale[i] in pending {
        var requeued := ReclaimStale(turn, since);
      }
    }

    /** One turn of the loop. */
    method Turned(turn: Turn) returns (alive: bool)
      requires Valid() && Pc() == Idle && |turn.ok| == |turn.stale|
      modifies this
      ensures Valid() && Follows(old(trace), trace, me, turn)
      ensures Pc() == if alive then Idle else Gone
    {
      ghost var since := trace;
      assert Follows(since, trace, me, turn);
      var work, e := Fetch(turn, since);
      if work {
        alive := Handle(e, turn, since);
      } else {
        MaybeSweep(turn, since);
        alive := true;
      }
    }

    /** The loop, for any schedule of other actors and any outcome of every call. `cuts` are
        the points of the run between its turns: in every turn the worker took exactly the
        steps its program prescribes for the way that turn's calls went, and it stopped early
        only because an acknowledgement failed. */
    method RunLoop(plan: seq<Turn>) returns (alive: bool, ghost cuts: seq<seq<Action>>)
      requires Valid() && Pc() == Idle
      requires forall i :: 0 <= i < |plan| ==> |plan[i].ok| == |plan[i].stale|
      modifies this
      ensures Valid() && Pc() == if alive then Idle else Gone
      ensures Served(cuts, me, plan) && cuts[0] == old(trace) && cuts[|cuts| - 1] == trace
      ensures alive ==> |cuts| == |plan| + 1
      ensures forall x :: multiset(sys.runs)[x] <= 1
      ensures forall task :: 0 <= task < |sys.published| ==> Delivery.Covered(sys, task, 0)
      ensures Messages.Carries(sys)
    {
      var n := 0;
      alive, cuts := true, [trace];
      while n < |plan| && alive
        invariant 0 <= n <= |plan| && |cuts| == n + 1
        invariant Valid() && Served(cuts, me, plan) && cuts[0] == old(trace) && cuts[n] == trace
        invariant Pc() == if alive then Idle else Gone
      {
        alive := Turned(plan[n]);
        cuts := cuts + [trace];
        n := n + 1;
      }
      assert Same(trace, trace);
      forall x ensures multiset(sys.runs)[x] <= 1 {
        Safety.AtMostOnce(trace, x);
      }
      Delivery.RunKeeps(INIT, trace);
      SweptExists(trace, sys, me);
    }
  }
}
