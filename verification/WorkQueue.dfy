/**
 Workspace work as a transition system: one Redis stream with its consumer group, the
 pending list, the dead letters, the durable execution rows, and any number of actors
 (workers, and API requests that submit or cancel) whose steps interleave freely.

 A step is the code between two awaits, so an actor's program counter names the await
 it is about to perform. Workers may crash at any point and any call may fail.
 */
module WorkQueue {

  datatype Status = QUEUED | RUNNING | SUCCEEDED | FAILED | CANCELLED | TIMED_OUT {
    predicate Terminal() {
      !QUEUED? && !RUNNING?
    }
  }

  /** A stream message points at an execution row; snapshots and malformed messages share the stream. */
  datatype Message = Execution(x: nat) | Snapshot | Malformed

  /** `task` numbers the original publish; a re-queued copy keeps it. */
  datatype Entry = Entry(task: nat, msg: Message)

  /** What `provider.execute` did: it returned a result with a timeout flag and perhaps an
      error, raised a provider error, or raised something else. */
  datatype Outcome = Result(timedOut: bool, error: bool) | ProviderError | OtherError

  /** How a command to Redis goes: it takes effect and returns, it takes effect and still
      raises (the reply is lost), or it raises without effect. */
  datatype Sent = Done | DoneThenRaises | NotDone

  datatype Pc =
    | Idle
    | Gone                                     // crashed or shut down
    // handle_execution
    | Fetched(e: nat)                          // before get_execution
    | Seen(e: nat, x: nat, status: Status)     // read a non-terminal row, bringing the runtime up
    | Claiming(e: nat, x: nat, status: Status) // runtime serving, before claim_execution
    | Claimed(e: nat, x: nat)                  // claim won, before provider.execute
    | Running(e: nat, x: nat)                  // inside provider.execute
    | Executed(e: nat, x: nat, status: Status) // provider returned, before the re-read
    | Writing(e: nat, x: nat, status: Status)  // before update_execution
    // settling the message
    | Returned(e: nat)                         // before acknowledge
    | Raised(e: nat)                           // before dead_letter
    | Buried(e: nat)                           // before the acknowledgement in fail
    // reclaim_stale
    | Sweeping(todo: seq<nat>)
    | Requeued(e: nat, todo: seq<nat>)         // copy published, before acknowledging the original
    // API requests
    | Created(x: nat)                          // row inserted, before publishing
    | Unpublished(x: nat)                      // publishing failed, before failing the row
    | Cancelling(x: nat)                       // read a non-terminal row, before writing CANCELLED

  /** The service's submit and cancel. */
  datatype RequestStep = Submit(x: nat) | Publish(sent: Sent) | FailUnpublished | ReadForCancel(x: nat) | Cancel

  /** `handle_execution`, and `handle_snapshot` as one step. */
  datatype HandlerStep =
    | ReadRow
    | SnapshotDone(ok: bool)
    | GiveUp                     // no workspace, or the runtime is not serving
    | RuntimeUp
    | Claim(raises: bool)        // `raises`: the commit takes effect and the call still raises
    | Call                       // provider.execute is entered
    | Complete(outcome: Outcome) // and comes back
    | Reread
    | Write(raises: bool)        // as for Claim
    | Raise                      // an exception without effect

  /** The worker loop and its consumer. */
  datatype QueueStep =
    | Start
    | Crash
    | Fetch
    | Ack(sent: Sent)
    | Bury(ok: bool)             // what a swallowed command raises makes no difference
    | BuryAck(ok: bool)
    | Sweep(stale: seq<nat>)
    | Requeue(sent: Sent)
    | RequeueAck(ok: bool)

  /** Everything else that touches the shared state. */
  datatype WorldStep = PublishOther(snapshot: bool) | DeleteRow(x: nat) | Trim(e: nat)

  datatype Action =
    | Request(w: nat, request: RequestStep)
    | Handler(w: nat, handler: HandlerStep)
    | Queue(w: nat, queue: QueueStep)
    | World(world: WorldStep)

  datatype Sys = Sys(
    stream: seq<Entry>,
    cursor: nat,              // entries below it have been delivered
    pending: map<nat, nat>,   // delivered, unacknowledged entry -> consumer
    trimmed: set<nat>,        // entries deleted from the stream
    dead: set<nat>,           // tasks with a dead letter
    rows: map<nat, Status>,
    actors: map<nat, Pc>,
    // history
    published: seq<Message>,  // the publishes so far; a task is an index into it
    issued: set<nat>,         // execution ids ever created
    runs: seq<nat>,           // calls of provider.execute, by execution, as they are made
    done: set<nat>,           // tasks processed to a normal return
    unlucky: set<nat>)        // tasks whose dead letter could not be written, or trimmed

  const INIT := Sys([], 0, map[], {}, {}, map[], map[], [], {}, [], {}, {})

  function At(s: Sys, w: nat): Pc {
    if w in s.actors then s.actors[w] else Gone
  }

  /** The entry at an index; indexes named by actors always exist (see `Wellformed`). */
  function EntryAt(s: Sys, e: nat): Entry {
    if e < |s.stream| then s.stream[e] else Entry(0, Malformed)
  }

  function Goto(s: Sys, w: nat, pc: Pc): Sys {
    s.(actors := s.actors[w := pc])
  }

  /** A normal return of the handler. */
  function Return(s: Sys, w: nat, e: nat): Sys {
    Goto(s, w, Returned(e)).(done := s.done + {EntryAt(s, e).task})
  }

  /** `update_execution`: writes the row if it still exists. */
  function Store(s: Sys, x: nat, status: Status): Sys {
    if x in s.rows then s.(rows := s.rows[x := status]) else s
  }

  function Append(s: Sys, task: nat, msg: Message): Sys {
    s.(stream := s.stream + [Entry(task, msg)])
  }

  /** A first publish: a new task. */
  function Announce(s: Sys, msg: Message): Sys {
    Append(s, |s.published|, msg).(published := s.published + [msg])
  }

  /** XACK. */
  function Unpend(s: Sys, e: nat): Sys {
    s.(pending := s.pending - {e})
  }

  /** XAUTOCLAIM. */
  function Reassign(pending: map<nat, nat>, stale: seq<nat>, w: nat): (r: map<nat, nat>)
    ensures r.Keys == pending.Keys
  {
    map e | e in pending :: if e in stale then w else pending[e]
  }

  function DoRequest(s: Sys, w: nat, a: RequestStep): Sys {
    var pc := At(s, w);
    match a
    case Submit(x) =>
      if pc.Idle? && x !in s.issued
      then Goto(s, w, Created(x)).(rows := s.rows[x := QUEUED], issued := s.issued + {x}) else s
    case Publish(sent) =>
      if !pc.Created? then s
      else
        var s' := Goto(s, w, if sent.Done? then Idle else Unpublished(pc.x));
        if sent.NotDone? then s' else Announce(s', Execution(pc.x))
    case FailUnpublished =>
      if pc.Unpublished? then Goto(Store(s, pc.x, FAILED), w, Idle) else s
    case ReadForCancel(x) =>
      if pc.Idle? && x in s.rows && !s.rows[x].Terminal() then Goto(s, w, Cancelling(x)) else s
    case Cancel =>
      if pc.Cancelling? then Goto(Store(s, pc.x, CANCELLED), w, Idle) else s
  }

  function DoWorld(s: Sys, a: WorldStep): Sys {
    match a
    case PublishOther(snapshot) =>
      Announce(s, if snapshot then Snapshot else Malformed)
    case DeleteRow(x) => s.(rows := s.rows - {x})
    case Trim(e) =>
      if e < |s.stream| then s.(trimmed := s.trimmed + {e}, unlucky := s.unlucky + {s.stream[e].task}) else s
  }

  function DoHandler(s: Sys, w: nat, a: HandlerStep): Sys {
    var pc := At(s, w);
    match a
    case ReadRow =>
      if !pc.Fetched? then s
      else
        (match EntryAt(s, pc.e).msg
         case Execution(x) =>
           if x !in s.rows || s.rows[x].Terminal() then Return(s, w, pc.e) else Goto(s, w, Seen(pc.e, x, s.rows[x]))
         case Malformed => Goto(s, w, Raised(pc.e))
         case Snapshot => s)
    case SnapshotDone(ok) =>
      if !pc.Fetched? || !EntryAt(s, pc.e).msg.Snapshot? then s
      else if ok then Return(s, w, pc.e) else Goto(s, w, Raised(pc.e))
    case GiveUp =>
      if pc.Seen? then Goto(s, w, Writing(pc.e, pc.x, FAILED)) else s
    case RuntimeUp =>
      if pc.Seen? then Goto(s, w, Claiming(pc.e, pc.x, pc.status)) else s
    case Claim(raises) =>
      if !pc.Claiming? then s
      else if !(pc.x in s.rows && s.rows[pc.x].QUEUED?) then
        if raises then Goto(s, w, Raised(pc.e)) else Return(s, w, pc.e)
      // execution.start refuses an entity that was not read as QUEUED
      else if !raises && pc.status.QUEUED? then Goto(Store(s, pc.x, RUNNING), w, Claimed(pc.e, pc.x))
      else Goto(Store(s, pc.x, RUNNING), w, Raised(pc.e))
    case Call =>
      if pc.Claimed? then Goto(s, w, Running(pc.e, pc.x)).(runs := s.runs + [pc.x]) else s
    case Complete(outcome) =>
      if !pc.Running? then s
      else
        (match outcome
         case Result(timedOut, error) =>
           Goto(s, w, Executed(pc.e, pc.x, if timedOut then TIMED_OUT else if error then FAILED else SUCCEEDED))
         case ProviderError => Goto(s, w, Writing(pc.e, pc.x, FAILED))
         case OtherError => Goto(s, w, Raised(pc.e)))
    case Reread =>
      if !pc.Executed? then s
      else if pc.x in s.rows && s.rows[pc.x].Terminal() then Return(s, w, pc.e)
      else Goto(s, w, Writing(pc.e, pc.x, pc.status))
    case Write(raises) =>
      if !pc.Writing? then s
      else if raises then Goto(Store(s, pc.x, pc.status), w, Raised(pc.e))
      else Return(Store(s, pc.x, pc.status), w, pc.e)
    case Raise =>
      if Processing(pc) then Goto(s, w, Raised(pc.e)) else s
  }

  function DoQueue(s: Sys, w: nat, a: QueueStep): Sys {
    var pc := At(s, w);
    match a
    case Start => if pc.Gone? then Goto(s, w, Idle) else s
    case Crash => Goto(s, w, Gone)
    case Fetch =>
      if !pc.Idle? || s.cursor >= |s.stream| then s
      else if s.cursor in s.trimmed then s.(cursor := s.cursor + 1)
      else Goto(s, w, Fetched(s.cursor)).(pending := s.pending[s.cursor := w], cursor := s.cursor + 1)
    case Ack(sent) =>
      // a failing acknowledge escapes the loop and ends the worker
      if !pc.Returned? then s
      else Goto(if sent.NotDone? then s else Unpend(s, pc.e), w, if sent.Done? then Idle else Gone)
    case Bury(ok) =>
      if !pc.Raised? then s
      else if ok then Goto(s, w, Buried(pc.e)).(dead := s.dead + {EntryAt(s, pc.e).task})
      else Goto(s, w, Buried(pc.e)).(unlucky := s.unlucky + {EntryAt(s, pc.e).task})
    case BuryAck(ok) =>
      if !pc.Buried? then s else Goto(if ok then Unpend(s, pc.e) else s, w, Idle)
    case Sweep(stale) =>
      if pc.Idle? && (forall i :: 0 <= i < |stale| ==> stale[i] in s.pending)
      then Goto(s, w, Sweeping(stale)).(pending := Reassign(s.pending, stale, w)) else s
    case Requeue(sent) =>
      if !pc.Sweeping? then s
      else if pc.todo == [] then Goto(s, w, Idle)
      else
        var e, rest := pc.todo[0], pc.todo[1..];
        if e in s.trimmed then Goto(s, w, Requeued(e, rest))
        else
          // the original is acknowledged only after a publish that returns
          var s' := Goto(s, w, if sent.Done? then Requeued(e, rest) else Sweeping(rest));
          if sent.NotDone? then s' else Append(s', EntryAt(s, e).task, EntryAt(s, e).msg)
    case RequeueAck(ok) =>
      if !pc.Requeued? then s else Goto(if ok then Unpend(s, pc.e) else s, w, Sweeping(pc.todo))
  }

  function Step(s: Sys, a: Action): Sys {
    match a
    case Request(w, r) => DoRequest(s, w, r)
    case Handler(w, h) => DoHandler(s, w, h)
    case Queue(w, q) => DoQueue(s, w, q)
    case World(o) => DoWorld(s, o)
  }

  /** The handler is running. */
  predicate Processing(pc: Pc) {
    pc.Fetched? || pc.Seen? || pc.Claiming? || pc.Claimed? || pc.Running? || pc.Executed? || pc.Writing?
  }

  /** The state after any run. */
  function Run(s: Sys, actions: seq<Action>): Sys
    decreases |actions|
  {
    if actions == [] then s else Run(Step(s, actions[0]), actions[1..])
  }

  lemma {:induction false} RunAppend(s: Sys, a: seq<Action>, b: seq<Action>)
    ensures Run(s, a + b) == Run(Run(s, a), b)
    decreases |a|
  {
    if a == [] {
      assert a + b == b;
    } else {
      assert (a + b)[1..] == a[1..] + b;
      RunAppend(Step(s, a[0]), a[1..], b);
    }
  }

  lemma RunTwo(s: Sys, a: Action, b: Action)
    ensures Run(s, [a]) == Step(s, a)
    ensures Run(s, [a, b]) == Step(Step(s, a), b)
  {
    assert [a, b][1..] == [b] && [b][1..] == [];
    assert Run(s, [a, b]) == Run(Step(s, a), [b]) == Run(Step(Step(s, a), b), []);
  }

  lemma RunSix(s: Sys, a: Action, b: Action, c: Action, d: Action, e: Action, f: Action)
    ensures Run(s, [a, b, c, d, e, f]) == Step(Step(Step(Step(Step(Step(s, a), b), c), d), e), f)
  {
    RunAppend(s, [a, b], [c, d, e, f]);
    RunAppend(Run(s, [a, b]), [c, d], [e, f]);
    assert [a, b] + [c, d, e, f] == [a, b, c, d, e, f] && [c, d] + [e, f] == [c, d, e, f];
    RunTwo(s, a, b);
    RunTwo(Run(s, [a, b]), c, d);
    RunTwo(Run(Run(s, [a, b]), [c, d]), e, f);
  }

  /** Nobody but `w` moved. */
  ghost predicate OnlyMoved(s: Sys, s': Sys, w: nat) {
    forall v :: v != w ==> At(s', v) == At(s, v)
  }

  lemma RequestFrame(s: Sys, w: nat, r: RequestStep)
    ensures var s' := DoRequest(s, w, r);
            && OnlyMoved(s, s', w)
            && s'.cursor == s.cursor && s'.pending == s.pending && s'.trimmed == s.trimmed
            && s'.dead == s.dead && s'.unlucky == s.unlucky && s'.done == s.done && s'.runs == s.runs
  {
  }

  /** A handler step leaves the queue and everybody else alone. */
  ghost predicate QueueUntouched(s: Sys, s': Sys, w: nat) {
    && OnlyMoved(s, s', w)
    && s'.stream == s.stream && s'.cursor == s.cursor && s'.pending == s.pending
    && s'.trimmed == s.trimmed && s'.dead == s.dead && s'.unlucky == s.unlucky
    && s'.published == s.published && s'.issued == s.issued
  }

  lemma HandlerFrame(s: Sys, w: nat, h: HandlerStep)
    ensures QueueUntouched(s, DoHandler(s, w, h), w)
  {
    match h {
      case ReadRow => ReadFrame(s, w);
      case Claim(raises) => ClaimFrame(s, w, raises);
      case Complete(outcome) => CompleteFrame(s, w, outcome);
      case _ => OtherFrame(s, w, h);
    }
  }

  lemma ReadFrame(s: Sys, w: nat)
    ensures QueueUntouched(s, DoHandler(s, w, ReadRow), w)
  {
  }

  lemma ClaimFrame(s: Sys, w: nat, raises: bool)
    ensures QueueUntouched(s, DoHandler(s, w, Claim(raises)), w)
  {
  }

  lemma CompleteFrame(s: Sys, w: nat, outcome: Outcome)
    ensures QueueUntouched(s, DoHandler(s, w, Complete(outcome)), w)
  {
  }

  lemma OtherFrame(s: Sys, w: nat, h: HandlerStep)
    requires !h.ReadRow? && !h.Claim? && !h.Complete?
    ensures QueueUntouched(s, DoHandler(s, w, h), w)
  {
  }

  lemma QueueFrame(s: Sys, w: nat, q: QueueStep)
    ensures var s' := DoQueue(s, w, q);
            && OnlyMoved(s, s', w)
            && s'.rows == s.rows && s'.issued == s.issued && s'.runs == s.runs
            && s'.published == s.published && s'.done == s.done && s'.trimmed == s.trimmed
  {
  }

  lemma WorldFrame(s: Sys, o: WorldStep)
    ensures var s' := DoWorld(s, o);
            && (forall v :: At(s', v) == At(s, v))
            && s'.cursor == s.cursor && s'.pending == s.pending
            && s'.dead == s.dead && s'.done == s.done && s'.runs == s.runs && s'.issued == s.issued
  {
  }
}
