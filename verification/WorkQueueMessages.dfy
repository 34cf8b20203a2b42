/** A re-queued copy is a copy: what every entry of the stream carries, over every run. */
module WorkQueueMessages {
  import opened WorkQueue

  /** Every entry carries the message its task was published with. */
  ghost predicate Carries(s: Sys) {
    forall e :: 0 <= e < |s.stream| ==> s.stream[e].task < |s.published| && s.stream[e].msg == s.published[s.stream[e].task]
  }

  /** The sweeps in progress name entries that exist. */
  ghost predicate Named(s: Sys) {
    && s.cursor <= |s.stream|
    && (forall e :: e in s.pending ==> e < |s.stream|)
    && (forall w :: At(s, w).Sweeping? ==> forall i :: 0 <= i < |At(s, w).todo| ==> At(s, w).todo[i] < |s.stream|)
    && (forall w :: At(s, w).Requeued? ==> forall i :: 0 <= i < |At(s, w).todo| ==> At(s, w).todo[i] < |s.stream|)
  }

  ghost predicate Inv(s: Sys) {
    Carries(s) && Named(s)
  }

  /** What a step may do to the stream: nothing, a new task, or a copy of an entry. */
  ghost predicate StreamStep(s: Sys, s': Sys) {
    || (s'.stream == s.stream && s'.published == s.published)
    || (exists msg :: s'.stream == s.stream + [Entry(|s.published|, msg)] && s'.published == s.published + [msg])
    || (exists e :: 0 <= e < |s.stream| && s'.stream == s.stream + [s.stream[e]] && s'.published == s.published)
  }

  lemma StreamStepKeeps(s: Sys, s': Sys)
    requires Carries(s) && StreamStep(s, s')
    ensures Carries(s') && s.stream <= s'.stream && s.published <= s'.published
  {
  }

  lemma RequestStreams(s: Sys, w: nat, r: RequestStep)
    ensures StreamStep(s, DoRequest(s, w, r))
  {
    if r.Publish? && At(s, w).Created? && !r.sent.NotDone? {
      assert DoRequest(s, w, r).stream == s.stream + [Entry(|s.published|, Execution(At(s, w).x))];
    }
  }

  lemma WorldStreams(s: Sys, o: WorldStep)
    ensures StreamStep(s, DoWorld(s, o))
  {
    if o.PublishOther? {
      var msg := if o.snapshot then Snapshot else Malformed;
      assert DoWorld(s, o).stream == s.stream + [Entry(|s.published|, msg)];
    }
  }

  /** The one step that copies: the copy is the head of the sweep's list. */
  lemma QueueStreams(s: Sys, w: nat, q: QueueStep)
    requires Named(s)
    ensures StreamStep(s, DoQueue(s, w, q))
    ensures DoQueue(s, w, q).stream != s.stream ==>
              && At(s, w).Sweeping? && At(s, w).todo != [] && At(s, w).todo[0] < |s.stream|
              && DoQueue(s, w, q).stream == s.stream + [s.stream[At(s, w).todo[0]]]
  {
    if q.Requeue? && At(s, w).Sweeping? && At(s, w).todo != [] {
      var e := At(s, w).todo[0];
      assert e < |s.stream| && s.stream[e] == Entry(s.stream[e].task, s.stream[e].msg);
    }
  }

  lemma NamedByQueue(s: Sys, w: nat, q: QueueStep)
    requires Named(s)
    ensures Named(DoQueue(s, w, q))
  {
    var s' := DoQueue(s, w, q);
    QueueFrame(s, w, q);
    assert |s.stream| <= |s'.stream|;
    forall v | At(s', v).Sweeping? || At(s', v).Requeued?
      ensures forall i :: 0 <= i < |At(s', v).todo| ==> At(s', v).todo[i] < |s'.stream|
    {
      if v == w && q.Sweep? && At(s, w).Idle? && At(s', w).Sweeping? {
        assert forall i :: 0 <= i < |q.stale| ==> q.stale[i] in s.pending;
      } else if v != w {
        assert At(s', v) == At(s, v);
      }
    }
  }

  lemma NamedByOthers(s: Sys, s': Sys, w: nat)
    requires Named(s) && OnlyMoved(s, s', w) && s.stream <= s'.stream
    requires s'.cursor == s.cursor && s'.pending == s.pending
    requires At(s', w) == At(s, w) || (!At(s', w).Sweeping? && !At(s', w).Requeued?)
    ensures Named(s')
  {
    forall v | At(s', v).Sweeping? || At(s', v).Requeued?
      ensures forall i :: 0 <= i < |At(s', v).todo| ==> At(s', v).todo[i] < |s'.stream|
    {
      assert At(s', v) == At(s, v);
    }
  }

  lemma StepKeeps(s: Sys, a: Action)
    requires Inv(s)
    ensures Inv(Step(s, a)) && s.published <= Step(s, a).published
  {
    match a {
      case Request(w, r) =>
        RequestFrame(s, w, r);
        RequestStreams(s, w, r);
        StreamStepKeeps(s, DoRequest(s, w, r));
        NamedByOthers(s, DoRequest(s, w, r), w);
      case Handler(w, h) =>
        HandlerFrame(s, w, h);
        NamedByOthers(s, DoHandler(s, w, h), w);
      case Queue(w, q) =>
        QueueStreams(s, w, q);
        StreamStepKeeps(s, DoQueue(s, w, q));
        NamedByQueue(s, w, q);
      case World(o) =>
        WorldFrame(s, o);
        WorldStreams(s, o);
        StreamStepKeeps(s, DoWorld(s, o));
        NamedByOthers(s, DoWorld(s, o), 0);
    }
  }

  /** Over every run, any two entries of one task carry the same message, the one it was
      published with. */
  lemma {:induction false} RunKeeps(s: Sys, actions: seq<Action>)
    requires Inv(s)
    ensures Inv(Run(s, actions)) && s.published <= Run(s, actions).published
    decreases |actions|
  {
    if actions != [] {
      StepKeeps(s, actions[0]);
      RunKeeps(Step(s, actions[0]), actions[1..]);
    }
  }

  lemma SameTaskSameMessage(actions: seq<Action>, d: nat, e: nat)
    ensures var s := Run(INIT, actions);
            d < |s.stream| && e < |s.stream| && s.stream[d].task == s.stream[e].task ==> s.stream[d] == s.stream[e]
  {
    RunKeeps(INIT, actions);
  }

  /** Submitting execution `x` puts a message for `x` on the stream. */
  lemma SubmitPublishes(s: Sys, w: nat, x: nat)
    requires At(s, w).Idle? && x !in s.issued
    ensures var t := Step(Step(s, Request(w, Submit(x))), Request(w, Publish(Done)));
            && t.stream == s.stream + [Entry(|s.published|, Execution(x))]
            && t.published == s.published + [Execution(x)]
            && x in t.rows && t.rows[x] == QUEUED && At(t, w).Idle?
  {
  }
}
