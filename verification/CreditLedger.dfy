/**
 Spending credits: one transaction reads the monthly bucket (or starts it from the
 tier's grant) and the wallet row, computes the spend, and saves both in one commit.
 Any number of workers do this at once; a second attempt after a dropped connection
 counts as a worker of its own. Saving looks the bucket up again and either
 updates the row it finds or inserts a new one, which the unique key may refuse.
 */
module CreditLedger {
  import opened Basics

  /** The two rows, for any representation of a bucket and of a wallet. */
  datatype Db<B, W> = Db(bucket: Option<B>, wallet: W)

  /** A worker inside `_consume_once`. `seen` is how many commits preceded its bucket read. */
  datatype Pc<B, W> =
    | Begin(retried: bool)
    | HasBucket(bucket: Option<B>, seen: nat, retried: bool)
    | HasBoth(bucket: Option<B>, wallet: W, seen: nat, retried: bool)
    | Probed(bucket: Option<B>, wallet: W, found: bool, seen: nat, retried: bool)
    | Finished
    | Refused                       // the IntegrityError of the retry is raised

  /** `overtaken` records that some commit updated a row read before another's commit. */
  datatype Ledger<B, W> = Ledger(db: Db<B, W>, pcs: map<nat, Pc<B, W>>, commits: seq<nat>, overtaken: bool)

  /** The spends of the workers, and the bucket a tier starts with. */
  datatype Spending<!B, !W> = Spending(grant: B, spend: (nat, B, W) -> (B, W))

  function At<B, W>(l: Ledger<B, W>, w: nat): Pc<B, W> {
    if w in l.pcs then l.pcs[w] else Begin(false)
  }

  function Goto<B, W>(l: Ledger<B, W>, w: nat, pc: Pc<B, W>): Ledger<B, W> {
    l.(pcs := l.pcs[w := pc])
  }

  /** What a worker's spend leaves of the state it read. */
  function Spend<B, W>(p: Spending<B, W>, w: nat, base: Db<B, W>): Db<B, W> {
    var r := p.spend(w, if base.bucket.Some? then base.bucket.value else p.grant, base.wallet);
    Db(Some(r.0), r.1)
  }

  /** The next step of worker `w`. */
  function Step<B, W>(p: Spending<B, W>, l: Ledger<B, W>, w: nat): Ledger<B, W> {
    match At(l, w)
    case Begin(retried) => Goto(l, w, HasBucket(l.db.bucket, |l.commits|, retried))
    case HasBucket(bucket, seen, retried) => Goto(l, w, HasBoth(bucket, l.db.wallet, seen, retried))
    case HasBoth(bucket, wallet, seen, retried) =>
      Goto(l, w, Probed(bucket, wallet, l.db.bucket.Some?, seen, retried))
    case Probed(bucket, wallet, found, seen, retried) =>
      if !found && l.db.bucket.Some? then
        // unique key violated: roll back, retry once
        if retried then Goto(l, w, Refused) else Goto(l, w, Begin(true))
      else
        Goto(l, w, Finished).(
          db := Spend(p, w, Db(bucket, wallet)),
          commits := l.commits + [w],
          overtaken := l.overtaken || seen < |l.commits|)
    case Finished => l
    case Refused => l
  }

  /** A schedule names the worker that takes each step. */
  function Run<B, W>(p: Spending<B, W>, l: Ledger<B, W>, schedule: seq<nat>): Ledger<B, W>
    decreases |schedule|
  {
    if schedule == [] then l else Run(p, Step(p, l, schedule[0]), schedule[1..])
  }

  function Start<B, W>(db: Db<B, W>): Ledger<B, W> {
    Ledger(db, map[], [], false)
  }

  /** The spends one after the other. */
  function Serial<B, W>(p: Spending<B, W>, db: Db<B, W>, order: seq<nat>): Db<B, W> {
    if order == [] then db
    else Spend(p, order[|order| - 1], Serial(p, db, order[..|order| - 1]))
  }

  // ---------------------------------------------------------------------------
  // Serial unless overtaken
  // ---------------------------------------------------------------------------

  ghost predicate PcOk<B, W>(p: Spending<B, W>, start: Db<B, W>, l: Ledger<B, W>, pc: Pc<B, W>) {
    match pc
    case HasBucket(bucket, seen, retried) =>
      && seen <= |l.commits| && (retried ==> l.db.bucket.Some?)
      && (seen == |l.commits| ==> bucket == l.db.bucket)
    case HasBoth(bucket, wallet, seen, retried) =>
      && seen <= |l.commits| && (retried ==> l.db.bucket.Some?)
      && (seen == |l.commits| ==> Db(bucket, wallet) == l.db)
    case Probed(bucket, wallet, found, seen, retried) =>
      && seen <= |l.commits| && (retried ==> found) && (found ==> l.db.bucket.Some?)
      && (seen == |l.commits| ==> Db(bucket, wallet) == l.db)
    case Begin(retried) => retried ==> l.db.bucket.Some?
    case Refused => false
    case Finished => true
  }

  ghost predicate SerialOk<B, W>(p: Spending<B, W>, start: Db<B, W>, l: Ledger<B, W>) {
    && (!l.overtaken ==> l.db == Serial(p, start, l.commits))
    && (l.db.bucket.None? ==> l.commits == [])
  }

  ghost predicate PcsOk<B, W>(p: Spending<B, W>, start: Db<B, W>, l: Ledger<B, W>) {
    forall w :: PcOk(p, start, l, At(l, w))
  }

  ghost predicate OnceOk<B, W>(l: Ledger<B, W>) {
    && (forall i :: 0 <= i < |l.commits| ==> At(l, l.commits[i]).Finished?)
    && (forall i, j :: 0 <= i < j < |l.commits| ==> l.commits[i] != l.commits[j])
  }

  ghost predicate Inv<B, W>(p: Spending<B, W>, start: Db<B, W>, l: Ledger<B, W>) {
    SerialOk(p, start, l) && PcsOk(p, start, l) && OnceOk(l)
  }

  /** `w` is about to commit. */
  predicate Commits<B, W>(l: Ledger<B, W>, w: nat) {
    At(l, w).Probed? && (At(l, w).found || l.db.bucket.None?)
  }

  lemma CommitSerial<B, W>(p: Spending<B, W>, start: Db<B, W>, l: Ledger<B, W>, w: nat)
    requires SerialOk(p, start, l) && Commits(l, w) && PcOk(p, start, l, At(l, w))
    ensures SerialOk(p, start, Step(p, l, w))
  {
    var l' := Step(p, l, w);
    assert l'.commits[..|l.commits|] == l.commits;
  }

  lemma CommitPcs<B, W>(p: Spending<B, W>, start: Db<B, W>, l: Ledger<B, W>, w: nat)
    requires PcsOk(p, start, l) && Commits(l, w)
    ensures PcsOk(p, start, Step(p, l, w))
  {
    var l' := Step(p, l, w);
    assert |l'.commits| == |l.commits| + 1 && l'.db.bucket.Some?;
    forall v ensures PcOk(p, start, l', At(l', v)) {
      assert PcOk(p, start, l, At(l, v));
    }
  }

  lemma CommitOnce<B, W>(p: Spending<B, W>, l: Ledger<B, W>, w: nat)
    requires OnceOk(l) && Commits(l, w)
    ensures OnceOk(Step(p, l, w))
  {
    var l' := Step(p, l, w);
    forall i | 0 <= i < |l.commits| ensures l.commits[i] != w && At(l', l.commits[i]).Finished? {
      assert At(l, l.commits[i]).Finished?;
    }
  }

  lemma MoveKeeps<B, W>(p: Spending<B, W>, start: Db<B, W>, l: Ledger<B, W>, l': Ledger<B, W>, w: nat, pc: Pc<B, W>)
    requires Inv(p, start, l) && l' == Goto(l, w, pc) && PcOk(p, start, l', pc)
    requires !At(l, w).Finished?
    ensures Inv(p, start, l')
  {
    forall v ensures PcOk(p, start, l', At(l', v)) {
      assert PcOk(p, start, l, At(l, v));
    }
    forall i | 0 <= i < |l.commits| ensures At(l', l.commits[i]).Finished? {
      assert At(l, l.commits[i]).Finished?;
    }
  }

  lemma StepKeeps<B, W>(p: Spending<B, W>, start: Db<B, W>, l: Ledger<B, W>, w: nat)
    requires Inv(p, start, l)
    ensures Inv(p, start, Step(p, l, w))
  {
    var pc := At(l, w);
    assert PcOk(p, start, l, pc);
    if Commits(l, w) {
      CommitSerial(p, start, l, w);
      CommitPcs(p, start, l, w);
      CommitOnce(p, l, w);
    } else if !pc.Finished? {
      MoveKeeps(p, start, l, Step(p, l, w), w, At(Step(p, l, w), w));
    }
  }

  lemma {:induction false} RunKeeps<B, W>(p: Spending<B, W>, start: Db<B, W>, l: Ledger<B, W>, schedule: seq<nat>)
    requires Inv(p, start, l)
    ensures Inv(p, start, Run(p, l, schedule))
    decreases |schedule|
  {
    if schedule != [] {
      StepKeeps(p, start, l, schedule[0]);
      RunKeeps(p, start, Step(p, l, schedule[0]), schedule[1..]);
    }
  }

  /** Whatever the spends are, a run in which no commit is overtaken ends, bucket and
      wallet together, in the state of running the committed spends in commit order; each
      worker commits at most once, and the retry never fails. */
  lemma SerialUnlessOvertaken<B, W>(p: Spending<B, W>, start: Db<B, W>, schedule: seq<nat>)
    ensures var l := Run(p, Start(start), schedule);
            && (!l.overtaken ==> l.db == Serial(p, start, l.commits))
            && (forall w :: !At(l, w).Refused?)
            && (forall i, j :: 0 <= i < j < |l.commits| ==> l.commits[i] != l.commits[j])
  {
    assert forall w :: PcOk(p, start, Start(start), At(Start(start), w));
    RunKeeps(p, start, Start(start), schedule);
    var l := Run(p, Start(start), schedule);
    assert forall w :: PcOk(p, start, l, At(l, w));
  }

  /** The insert path is always safe: an insert succeeds only before every other commit. */
  lemma InsertsAreSafe<B, W>(p: Spending<B, W>, start: Db<B, W>, schedule: seq<nat>, w: nat)
    ensures var l := Run(p, Start(start), schedule);
            At(l, w).Probed? && !At(l, w).found ==>
              Step(p, l, w).overtaken == l.overtaken
  {
    assert forall v :: PcOk(p, start, Start(start), At(Start(start), v));
    RunKeeps(p, start, Start(start), schedule);
  }

  // ---------------------------------------------------------------------------
  // Exactness: an overtaken run loses a spend
  // ---------------------------------------------------------------------------

  /** Every spend adds one, so the bucket counts the spends it contains. */
  function Counting(): Spending<int, ()> {
    Spending(0, (w: nat, b: int, wallet: ()) => (b + 1, wallet))
  }

  function Tally(bucket: Option<int>): int {
    if bucket.Some? then bucket.value else 0
  }

  /** A count taken at version `seen` is at most `seen`, and less once a spend was lost. */
  ghost predicate Short(l: Ledger<int, ()>, bucket: Option<int>, seen: nat) {
    && Tally(bucket) <= seen <= |l.commits|
    && (l.overtaken && seen == |l.commits| ==> Tally(bucket) < seen)
  }

  ghost predicate CountInv(l: Ledger<int, ()>) {
    && Short(l, l.db.bucket, |l.commits|)
    && (forall w :: At(l, w).HasBucket? || At(l, w).HasBoth? || At(l, w).Probed? ==>
          Short(l, At(l, w).bucket, At(l, w).seen))
  }

  lemma CountStep(l: Ledger<int, ()>, w: nat)
    requires CountInv(l)
    ensures CountInv(Step(Counting(), l, w))
  {
    var l' := Step(Counting(), l, w);
    assert forall v :: v != w ==> At(l', v) == At(l, v);
    if l'.commits != l.commits {
      assert At(l, w).Probed?;
      assert Short(l, At(l, w).bucket, At(l, w).seen);
    }
  }

  lemma {:induction false} CountRun(l: Ledger<int, ()>, schedule: seq<nat>)
    requires CountInv(l)
    ensures CountInv(Run(Counting(), l, schedule))
    decreases |schedule|
  {
    if schedule != [] {
      CountStep(l, schedule[0]);
      CountRun(Step(Counting(), l, schedule[0]), schedule[1..]);
    }
  }

  /** A counting start: the bucket is missing, or there with nothing spent. */
  function Zero(there: bool): Db<int, ()> {
    Db(if there then Some(0) else None, ())
  }

  lemma {:induction false} SerialCount(there: bool, order: seq<nat>)
    ensures Tally(Serial(Counting(), Zero(there), order).bucket) == |order|
  {
    if order != [] {
      SerialCount(there, order[..|order| - 1]);
    }
  }

  /** Which worker does what next, and whether a commit is overtaken, depends on the
      schedule alone, not on the amounts. */
  ghost predicate SameShape<B, W>(a: Pc<B, W>, b: Pc<int, ()>) {
    match a
    case Begin(r) => b == Begin(r)
    case HasBucket(_, seen, r) => b.HasBucket? && b.seen == seen && b.retried == r
    case HasBoth(_, _, seen, r) => b.HasBoth? && b.seen == seen && b.retried == r
    case Probed(_, _, found, seen, r) => b.Probed? && b.found == found && b.seen == seen && b.retried == r
    case Finished => b == Finished
    case Refused => b == Refused
  }

  ghost predicate Parallel<B, W>(l: Ledger<B, W>, m: Ledger<int, ()>) {
    && l.commits == m.commits && l.overtaken == m.overtaken
    && l.db.bucket.Some? == m.db.bucket.Some?
    && forall w :: SameShape(At(l, w), At(m, w))
  }

  lemma ParallelStep<B, W>(p: Spending<B, W>, l: Ledger<B, W>, m: Ledger<int, ()>, w: nat)
    requires Parallel(l, m)
    ensures Parallel(Step(p, l, w), Step(Counting(), m, w))
  {
    var l', m' := Step(p, l, w), Step(Counting(), m, w);
    assert SameShape(At(l, w), At(m, w));
    ParallelMover(p, l, m, w);
    forall v ensures SameShape(At(l', v), At(m', v)) {
      if v != w {
        OnlyMoverMoves(p, l, w, v);
        OnlyMoverMoves(Counting(), m, w, v);
        assert SameShape(At(l, v), At(m, v));
      }
    }
  }

  lemma OnlyMoverMoves<B, W>(p: Spending<B, W>, l: Ledger<B, W>, w: nat, v: nat)
    requires v != w
    ensures At(Step(p, l, w), v) == At(l, v)
  {
  }

  lemma ParallelMover<B, W>(p: Spending<B, W>, l: Ledger<B, W>, m: Ledger<int, ()>, w: nat)
    requires SameShape(At(l, w), At(m, w)) && l.commits == m.commits && l.overtaken == m.overtaken
    requires l.db.bucket.Some? == m.db.bucket.Some?
    ensures var l', m' := Step(p, l, w), Step(Counting(), m, w);
            && SameShape(At(l', w), At(m', w)) && l'.commits == m'.commits && l'.overtaken == m'.overtaken
            && l'.db.bucket.Some? == m'.db.bucket.Some?
  {
  }

  lemma {:induction false} ParallelRun<B, W>(p: Spending<B, W>, l: Ledger<B, W>, m: Ledger<int, ()>, schedule: seq<nat>)
    requires Parallel(l, m)
    ensures Parallel(Run(p, l, schedule), Run(Counting(), m, schedule))
    decreases |schedule|
  {
    if schedule != [] {
      ParallelStep(p, l, m, schedule[0]);
      ParallelRun(p, Step(p, l, schedule[0]), Step(Counting(), m, schedule[0]), schedule[1..]);
    }
  }

  /** The condition, read off the schedule and whether the bucket exists. */
  ghost predicate Overtakes(there: bool, schedule: seq<nat>) {
    Run(Counting(), Start(Zero(there)), schedule).overtaken
  }

  /** From any start, a schedule ends in a serial state for every spend function exactly when
      it lets no worker update a row it read before another's commit. */
  lemma SerialExactlyWhen<B, W>(p: Spending<B, W>, start: Db<B, W>, schedule: seq<nat>)
    ensures var there := start.bucket.Some?;
            !Overtakes(there, schedule) ==>
              var l := Run(p, Start(start), schedule);
              l.db == Serial(p, start, l.commits)
    ensures var there := start.bucket.Some?;
            Overtakes(there, schedule) ==>
              var l := Run(Counting(), Start(Zero(there)), schedule);
              l.db != Serial(Counting(), Zero(there), l.commits)
  {
    var m := Start(Zero(start.bucket.Some?));
    var l := Start(start);
    assert forall w :: At(l, w) == Begin(false) && At(m, w) == Begin(false);
    ParallelRun(p, l, m, schedule);
    SerialUnlessOvertaken(p, start, schedule);
    assert CountInv(m);
    CountRun(m, schedule);
    SerialCount(start.bucket.Some?, Run(Counting(), m, schedule).commits);
  }

  /** With a bucket there, nothing is ever retried, and two spends that both read it before
      either commits lose one. */
  lemma UpdatesCanOvertake()
    ensures Overtakes(true, [1, 1, 2, 2] + [1, 1, 2, 2])
  {
    var s := Start(Zero(true));
    Four(Counting(), s, 1, 1, 2, 2);
    var l := Run(Counting(), s, [1, 1, 2, 2]);
    assert At(l, 1) == HasBoth(Some(0), (), 0, false) == At(l, 2) && l.commits == [];
    Four(Counting(), l, 1, 1, 2, 2);
    var m := Step(Counting(), Step(Counting(), l, 1), 1);
    assert m.commits == [1] && At(m, 2) == At(l, 2);
    RunAppend(Counting(), s, [1, 1, 2, 2], [1, 1, 2, 2]);
  }

  /** Both workers have read the missing bucket and the wallet. */
  lemma BothRead() returns (l: Ledger<int, ()>)
    ensures l == Run(Counting(), Start(Db(None, ())), [1, 1, 2, 2])
    ensures At(l, 1) == HasBoth(None, (), 0, false) && At(l, 2) == HasBoth(None, (), 0, false)
    ensures l.db == Db(None, ()) && l.commits == [] && !l.overtaken
  {
    Four(Counting(), Start(Db<int, ()>.Db(None, ())), 1, 1, 2, 2);
    l := Run(Counting(), Start(Db(None, ())), [1, 1, 2, 2]);
  }

  /** Two first uses can overtake: both read, one commits, the other then finds the row and
      updates it, so no key is violated, nothing is retried, and the first spend is lost. */
  lemma FirstUseCanOvertake()
    ensures Overtakes(false, [1, 1, 2, 2] + [1, 1, 2, 2])
  {
    var l := BothRead();
    Four(Counting(), l, 1, 1, 2, 2);
    var m := Step(Counting(), Step(Counting(), l, 1), 1);
    assert m.commits == [1] && At(m, 2) == At(l, 2);
    RunAppend(Counting(), Start(Db(None, ())), [1, 1, 2, 2], [1, 1, 2, 2]);
  }

  /** The race the retry is for: both look the bucket up before either commits, the second
      insert is refused, and its retry spends from the first one's result. */
  lemma RefusedInsertRetries()
    ensures !Overtakes(false, [1, 1, 2, 2] + [1, 2, 1, 2] + [2, 2, 2, 2])
    ensures Run(Counting(), Start(Db(None, ())), [1, 1, 2, 2] + [1, 2, 1, 2] + [2, 2, 2, 2]).db == Db(Some(2), ())
  {
    var l := BothRead();
    Four(Counting(), l, 1, 2, 1, 2);
    var m := Run(Counting(), l, [1, 2, 1, 2]);
    assert At(m, 2) == Begin(true) && m.commits == [1] && !m.overtaken && m.db == Db(Some(1), ());
    Four(Counting(), m, 2, 2, 2, 2);
    RunAppend(Counting(), Start(Db(None, ())), [1, 1, 2, 2], [1, 2, 1, 2]);
    RunAppend(Counting(), Start(Db(None, ())), [1, 1, 2, 2] + [1, 2, 1, 2], [2, 2, 2, 2]);
  }

  lemma Four<B, W>(p: Spending<B, W>, l: Ledger<B, W>, a: nat, b: nat, c: nat, d: nat)
    ensures Run(p, l, [a, b, c, d]) == Step(p, Step(p, Step(p, Step(p, l, a), b), c), d)
  {
    assert [a, b, c, d][1..] == [b, c, d] && [b, c, d][1..] == [c, d] && [c, d][1..] == [d] && [d][1..] == [];
    var l2 := Step(p, Step(p, l, a), b);
    assert Run(p, l, [a, b, c, d]) == Run(p, l2, [c, d]);
    assert Run(p, l2, [c, d]) == Run(p, Step(p, Step(p, l2, c), d), []);
  }

  lemma {:induction false} RunAppend<B, W>(p: Spending<B, W>, l: Ledger<B, W>, a: seq<nat>, b: seq<nat>)
    ensures Run(p, l, a + b) == Run(p, Run(p, l, a), b)
    decreases |a|
  {
    if a == [] {
      assert a + b == b;
    } else {
      assert (a + b)[1..] == a[1..] + b;
      RunAppend(p, Step(p, l, a[0]), a[1..], b);
    }
  }
}
