/**
 The workspace worker's program, one step at a time: what a worker does next given where it
 is and how its calls go, and what it means for a run to follow that program while other
 actors take any steps they like.
 */
module WorkspaceProgram {
  import opened WorkQueue
  import Safety = WorkQueueSafety
  import Messages = WorkQueueMessages

  /** What the calls made while handling one execution do. */
  datatype Lookup = Missing | Present | LookupRaises
  datatype Commit = Commits | CommitsThenRaises | RaisesFirst
  datatype Script = Script(
    readRaises: bool,
    workspace: Lookup,
    runtime: Lookup,       // Missing: not serving, or no provider reference
    claim: Commit,
    outcome: Outcome,
    rereadRaises: bool,
    write: Commit)

  /** How the calls of one turn of the loop go. `stale` is what the claim returns, and
      `ok` how re-publishing and acknowledging each of those entries go. */
  datatype Turn = Turn(
    script: Script, snapshotOk: bool, deadLetterOk: bool, ack: Sent,
    stale: seq<nat>, ok: seq<(Sent, bool)>)

  predicate Mine(a: Action, me: nat) {
    !a.World? && a.w == me
  }

  /** The run continued with steps of other actors only. */
  ghost predicate OthersRan(before: seq<Action>, after: seq<Action>, me: nat) {
    before <= after && forall i :: |before| <= i < |after| ==> !Mine(after[i], me)
  }

  /** What a worker does next, given where it is and how the calls of this turn go. */
  function NextStep(s: Sys, me: nat, turn: Turn): Action {
    var script, n := turn.script, |turn.ok|;
    match At(s, me)
    case Fetched(e) =>
      Handler(me, match EntryAt(s, e).msg
                  case Execution(_) => if script.readRaises then Raise else ReadRow
                  case Malformed => Raise
                  case Snapshot => SnapshotDone(turn.snapshotOk))
    case Seen(_, _, _) =>
      Handler(me, if script.workspace.LookupRaises? then Raise
                  else if script.workspace.Missing? then GiveUp
                  else if script.runtime.LookupRaises? then Raise
                  else if script.runtime.Missing? then GiveUp else RuntimeUp)
    case Claiming(_, _, _) => Handler(me, if script.claim.RaisesFirst? then Raise else Claim(script.claim.CommitsThenRaises?))
    case Claimed(_, _) => Handler(me, Call)
    case Running(_, _) => Handler(me, Complete(script.outcome))
    case Executed(_, _, _) => Handler(me, if script.rereadRaises then Raise else Reread)
    case Writing(_, _, _) => Handler(me, if script.write.RaisesFirst? then Raise else Write(script.write.CommitsThenRaises?))
    case Returned(_) => Queue(me, Ack(turn.ack))
    case Raised(_) => Queue(me, Bury(turn.deadLetterOk))
    case Buried(_) => Queue(me, BuryAck(!turn.ack.NotDone?))
    case Sweeping(todo) => Queue(me, Requeue(if 0 < |todo| <= n then turn.ok[n - |todo|].0 else NotDone))
    case Requeued(_, todo) => Queue(me, RequeueAck(|todo| < n && turn.ok[n - |todo| - 1].1))
    case _ => Queue(me, QueueStep.Fetch)
  }

  /** An idle worker fetches or sweeps; otherwise the next step is determined. */
  predicate Prescribed(s: Sys, me: nat, turn: Turn, a: Action) {
    a == NextStep(s, me, turn) || (At(s, me).Idle? && a == Queue(me, Sweep(turn.stale)))
  }

  /** From `before` on, every step of this worker in the run was the prescribed one. */
  ghost predicate Obeys(before: seq<Action>, run: seq<Action>, me: nat, turn: Turn)
    decreases |run|
  {
    |run| <= |before| ||
    var most, last := run[..|run| - 1], run[|run| - 1];
    Obeys(before, most, me, turn) && (Mine(last, me) ==> Prescribed(Run(INIT, most), me, turn, last))
  }

  /** The copies a worker has put on the stream: those whose publish returned, which it counts,
      and those whose reply was lost, which it does not. */
  datatype Tally = Tally(counted: nat, uncounted: nat)

  predicate Grows(s: Sys, a: Action) {
    |Step(s, a).stream| > |s.stream|
  }

  function Noted(t: Tally, s: Sys, a: Action): Tally {
    if !Grows(s, a) then t
    else if a.Queue? && a.queue.Requeue? && a.queue.sent.Done? then t.(counted := t.counted + 1)
    else t.(uncounted := t.uncounted + 1)
  }

  ghost function Copies(run: seq<Action>, me: nat): Tally
    decreases |run|
  {
    if run == [] then Tally(0, 0)
    else
      var most, last := run[..|run| - 1], run[|run| - 1];
      if Mine(last, me) then Noted(Copies(most, me), Run(INIT, most), last) else Copies(most, me)
  }

  /** How many publishes of a sweep take effect and raise. */
  function LostReplies(ok: seq<(Sent, bool)>): nat {
    if ok == [] then 0
    else LostReplies(ok[..|ok| - 1]) + if ok[|ok| - 1].0.DoneThenRaises? then 1 else 0
  }

  // The three facts about a run that the class relies on. They are stated of every equal
  // run, so that a proof unfolds them only where it names one.

  ghost predicate Same(a: seq<Action>, b: seq<Action>) {
    a == b
  }

  /** The run leads to this state. */
  ghost predicate Reaches(run: seq<Action>, s: Sys) {
    forall t {:trigger Same(t, run)} :: Same(t, run) ==> Run(INIT, t) == s
  }

  /** The run continued so that every step of this worker was the prescribed one. */
  ghost predicate Follows(before: seq<Action>, after: seq<Action>, me: nat, turn: Turn) {
    before <= after && forall t {:trigger Same(t, after)} :: Same(t, after) ==> Obeys(before, t, me, turn)
  }

  /** Turn by turn, from each cut of the run to the next. */
  ghost predicate Served(cuts: seq<seq<Action>>, me: nat, plan: seq<Turn>) {
    && 1 <= |cuts| <= |plan| + 1
    && forall i :: 0 <= i < |cuts| - 1 ==> Follows(cuts[i], cuts[i + 1], me, plan[i])
  }

  ghost predicate Copied(run: seq<Action>, me: nat, copies: Tally) {
    forall t {:trigger Same(t, run)} :: Same(t, run) ==> Copies(t, me) == copies
  }

  lemma {:induction false} ObeysChain(a: seq<Action>, b: seq<Action>, c: seq<Action>, me: nat, turn: Turn)
    requires b <= c && Obeys(a, b, me, turn) && Obeys(b, c, me, turn)
    ensures Obeys(a, c, me, turn)
    decreases |c|
  {
    if |c| > |b| {
      ObeysChain(a, b, c[..|c| - 1], me, turn);
    } else {
      assert c == b;
    }
  }

  lemma FollowsChain(a: seq<Action>, b: seq<Action>, c: seq<Action>, me: nat, turn: Turn)
    requires Follows(a, b, me, turn) && Follows(b, c, me, turn)
    ensures Follows(a, c, me, turn)
  {
    assert Same(b, b) && Same(c, c);
    ObeysChain(a, b, c, me, turn);
  }

  lemma {:induction false} OthersObey(before: seq<Action>, mid: seq<Action>, after: seq<Action>, me: nat, turn: Turn)
    requires Obeys(before, mid, me, turn) && OthersRan(mid, after, me)
    ensures Obeys(before, after, me, turn)
    decreases |after|
  {
    if |after| > |mid| {
      OthersObey(before, mid, after[..|after| - 1], me, turn);
    } else {
      assert after == mid;
    }
  }

  lemma {:induction false} OthersCopyNothing(mid: seq<Action>, after: seq<Action>, me: nat)
    requires OthersRan(mid, after, me)
    ensures Copies(after, me) == Copies(mid, me)
    decreases |after|
  {
    if |after| > |mid| {
      OthersCopyNothing(mid, after[..|after| - 1], me);
    } else {
      assert after == mid;
    }
  }

  /** What a sweep still has to do names entries of the stream, and every entry carries the
      message of its task. */
  lemma SweptExists(run: seq<Action>, s: Sys, me: nat)
    requires Reaches(run, s)
    ensures Messages.Carries(s)
    ensures At(s, me).Sweeping? ==> forall i :: 0 <= i < |At(s, me).todo| ==> At(s, me).todo[i] < |s.stream|
  {
    assert Same(run, run);
    Messages.RunKeeps(INIT, run);
  }

  lemma WonStarts(run: seq<Action>, s: Sys, me: nat)
    requires Reaches(run, s)
    ensures var pc := At(s, me);
            pc.Claiming? && pc.x in s.rows && s.rows[pc.x].QUEUED? ==>
              At(DoHandler(s, me, Claim(false)), me) == Claimed(pc.e, pc.x)
  {
    assert Same(run, run);
    Safety.WonClaimStarts(run, me);
  }

  lemma OneMore(run: seq<Action>, s: Sys, copies: Tally, a: Action, me: nat)
    requires Reaches(run, s) && Copied(run, me, copies) && Mine(a, me)
    ensures Reaches(run + [a], Step(s, a))
    ensures Copied(run + [a], me, Noted(copies, s, a))
  {
    assert Same(run, run);
    RunAppend(INIT, run, [a]);
    RunTwo(s, a, a);
    assert (run + [a])[..|run|] == run;
  }

  lemma OneMoreObeys(before: seq<Action>, run: seq<Action>, s: Sys, a: Action, me: nat, turn: Turn)
    requires Reaches(run, s) && Follows(before, run, me, turn) && Prescribed(s, me, turn, a)
    ensures Follows(before, run + [a], me, turn)
  {
    assert Same(run, run);
    assert (run + [a])[..|run|] == run;
  }

  lemma {:induction false} OthersLeaveMe(s: Sys, actions: seq<Action>, me: nat)
    requires forall i :: 0 <= i < |actions| ==> !Mine(actions[i], me)
    ensures At(Run(s, actions), me) == At(s, me)
    decreases |actions|
  {
    if actions != [] {
      var a := actions[0];
      assert !Mine(a, me);
      match a {
        case Request(w, r) => RequestFrame(s, w, r);
        case Handler(w, h) => HandlerFrame(s, w, h);
        case Queue(w, q) => QueueFrame(s, w, q);
        case World(o) => WorldFrame(s, o);
      }
      OthersLeaveMe(Step(s, a), actions[1..], me);
    }
  }

  lemma StreamOnlyGrows(s: Sys, a: Action)
    ensures s.stream <= Step(s, a).stream
  {
    if a.Handler? {
      HandlerFrame(s, a.w, a.handler);
    }
  }

  lemma {:induction false} RunOnlyGrows(s: Sys, actions: seq<Action>)
    ensures s.stream <= Run(s, actions).stream
    decreases |actions|
  {
    if actions != [] {
      StreamOnlyGrows(s, actions[0]);
      RunOnlyGrows(Step(s, actions[0]), actions[1..]);
    }
  }

  /** The contract of `Await` below allows every interference: whatever other actors do,
      this worker's program counter and the entries it knows about stay put, it still obeys
      its program, and it has put no copies on the stream. */
  lemma AwaitAllowsEverything(trace: seq<Action>, others: seq<Action>, me: nat, since: seq<Action>, turn: Turn)
    requires forall i :: 0 <= i < |others| ==> !Mine(others[i], me)
    ensures OthersRan(trace, trace + others, me)
    ensures Follows(since, trace, me, turn) ==> Follows(since, trace + others, me, turn)
    ensures Copies(trace + others, me) == Copies(trace, me)
    ensures At(Run(INIT, trace + others), me) == At(Run(INIT, trace), me)
    ensures Run(INIT, trace).stream <= Run(INIT, trace + others).stream
  {
    RunAppend(INIT, trace, others);
    OthersLeaveMe(Run(INIT, trace), others, me);
    RunOnlyGrows(Run(INIT, trace), others);
    OthersCopyNothing(trace, trace + others, me);
    if Follows(since, trace, me, turn) {
      assert Same(trace, trace);
      OthersObey(since, trace, trace + others, me, turn);
    }
  }
}
