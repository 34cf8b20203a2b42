/** Snapshot retention: which image revisions a prune deletes, and how many it leaves. */
module Revisions {

  /** A revision of one workspace; only READY ones are prunable. */
  datatype Revision = Revision(id: nat, ready: bool)

  /** The slack of the listing beyond the retention. */
  const SLACK: nat := 20

  function ReadyCount(rows: seq<Revision>): (n: nat)
    ensures n <= |rows|
  {
    if rows == [] then 0 else ReadyCount(rows[..|rows| - 1]) + (if rows[|rows| - 1].ready then 1 else 0)
  }

  function OtherCount(rows: seq<Revision>): nat {
    |rows| - ReadyCount(rows)
  }

  /** `list_revisions`: the newest rows, up to the limit. */
  function Window(rows: seq<Revision>, retention: nat): seq<Revision> {
    if |rows| <= retention + SLACK then rows else rows[..retention + SLACK]
  }

  /** A listed row is stale when it is READY and `retention` READY rows are newer. */
  predicate Stale(rows: seq<Revision>, retention: nat, i: nat)
    requires i < |rows|
  {
    i < |Window(rows, retention)| && rows[i].ready && ReadyCount(rows[..i]) >= retention
  }

  /** What a prune leaves of the first `n` rows when every delete succeeds. */
  function Kept(rows: seq<Revision>, retention: nat, n: nat): seq<Revision>
    requires n <= |rows|
  {
    if n == 0 then []
    else Kept(rows, retention, n - 1) + (if Stale(rows, retention, n - 1) then [] else [rows[n - 1]])
  }

  function Pruned(rows: seq<Revision>, retention: nat): seq<Revision> {
    Kept(rows, retention, |rows|)
  }

  predicate UniqueIds(rows: seq<Revision>) {
    forall i, j :: 0 <= i < j < |rows| ==> rows[i].id != rows[j].id
  }

  // ---------------------------------------------------------------------------
  // What is left
  // ---------------------------------------------------------------------------

  lemma {:induction false} ReadyAppend(a: seq<Revision>, b: seq<Revision>)
    ensures ReadyCount(a + b) == ReadyCount(a) + ReadyCount(b)
  {
    if b == [] {
      assert a + b == a;
    } else {
      assert (a + b)[..|a + b| - 1] == a + b[..|b| - 1];
      ReadyAppend(a, b[..|b| - 1]);
    }
  }

  function Least(a: nat, b: nat): nat {
    if a < b then a else b
  }

  /** Inside the window at most `retention` READY rows are left. */
  lemma {:induction false} KeptInside(rows: seq<Revision>, retention: nat, n: nat)
    requires n <= |Window(rows, retention)|
    ensures ReadyCount(Kept(rows, retention, n)) == Least(retention, ReadyCount(rows[..n]))
  {
    if n > 0 {
      KeptInside(rows, retention, n - 1);
      KeptReadyStep(rows, retention, n - 1);
      ReadySnoc(rows, n - 1);
    }
  }

  /** Beyond the window all of them are. */
  lemma {:induction false} KeptBeyond(rows: seq<Revision>, retention: nat, n: nat)
    requires |Window(rows, retention)| <= n <= |rows|
    ensures var w := |Window(rows, retention)|;
            ReadyCount(Kept(rows, retention, n)) == ReadyCount(Kept(rows, retention, w)) + ReadyCount(rows[w..n])
    decreases n
  {
    var w := |Window(rows, retention)|;
    if n > w {
      KeptBeyond(rows, retention, n - 1);
      KeptReadyStep(rows, retention, n - 1);
      ReadySlice(rows, w, n - 1);
    }
  }

  lemma ReadySlice(rows: seq<Revision>, w: nat, n: nat)
    requires w <= n < |rows|
    ensures ReadyCount(rows[w..n + 1]) == ReadyCount(rows[w..n]) + (if rows[n].ready then 1 else 0)
  {
    assert rows[w..n + 1][..n - w] == rows[w..n];
  }

  lemma KeptReadyStep(rows: seq<Revision>, retention: nat, n: nat)
    requires n < |rows|
    ensures ReadyCount(Kept(rows, retention, n + 1))
            == ReadyCount(Kept(rows, retention, n)) + (if rows[n].ready && !Stale(rows, retention, n) then 1 else 0)
  {
    if Stale(rows, retention, n) {
      assert Kept(rows, retention, n + 1) == Kept(rows, retention, n);
    } else {
      ReadyAppend(Kept(rows, retention, n), [rows[n]]);
      ReadySingle(rows[n]);
    }
  }

  lemma ReadySingle(r: Revision)
    ensures ReadyCount([r]) == if r.ready then 1 else 0
  {
    assert [r][..0] == [];
  }

  lemma ReadySnoc(rows: seq<Revision>, n: nat)
    requires n < |rows|
    ensures ReadyCount(rows[..n + 1]) == ReadyCount(rows[..n]) + (if rows[n].ready then 1 else 0)
  {
    assert rows[..n + 1][..n] == rows[..n];
  }

  /** The READY rows a prune leaves: at most `retention` in the window, everything beyond it. */
  lemma ReadyLeft(rows: seq<Revision>, retention: nat)
    ensures var window := Window(rows, retention);
            ReadyCount(Pruned(rows, retention))
              == Least(retention, ReadyCount(window)) + ReadyCount(rows[|window|..])
  {
    var w := |Window(rows, retention)|;
    KeptInside(rows, retention, w);
    KeptBeyond(rows, retention, |rows|);
    assert rows[w..|rows|] == rows[w..] && rows[..w] == Window(rows, retention);
  }

  /** A prune enforces the retention exactly when no READY row is hidden beyond the listing,
      or there were few enough to begin with. */
  lemma RetentionHoldsExactlyWhen(rows: seq<Revision>, retention: nat)
    ensures ReadyCount(Pruned(rows, retention)) <= retention <==>
            ReadyCount(rows[|Window(rows, retention)|..]) == 0 || ReadyCount(rows) <= retention
  {
    var w := |Window(rows, retention)|;
    ReadyLeft(rows, retention);
    assert rows == rows[..w] + rows[w..];
    ReadyAppend(rows[..w], rows[w..]);
    assert rows[..w] == Window(rows, retention);
  }

  /** With at most 19 rows that are not READY, a prune leaves at most the retention, if no more
      than one READY row was too many; whatever the rows and their order. */
  lemma NineteenOthersAreFine(rows: seq<Revision>, retention: nat)
    requires OtherCount(rows) <= 19 && ReadyCount(rows) <= retention + 1
    ensures ReadyCount(Pruned(rows, retention)) <= retention
  {
    assert |rows| <= retention + 20;
    assert rows[|Window(rows, retention)|..] == [];
    RetentionHoldsExactlyWhen(rows, retention);
  }

  /** Twenty newer failed snapshots hide the oldest READY one: one too many is left. */
  lemma FailuresHideRevisions(retention: nat)
    requires retention >= 1
    ensures var rows := [Revision(0, true)] + seq(20, i requires 0 <= i => Revision(1 + i, false))
                        + seq(retention, i requires 0 <= i => Revision(21 + i, true));
            ReadyCount(Pruned(rows, retention)) == retention + 1
  {
    var failed := seq(20, i requires 0 <= i => Revision(1 + i, false));
    var older := seq(retention, i requires 0 <= i => Revision(21 + i, true));
    var rows := [Revision(0, true)] + failed + older;
    var w := |Window(rows, retention)|;
    assert w == retention + SLACK;
    AllReady(older[..retention - 1]);
    AllReady(older[retention - 1..]);
    NoneReady(failed);
    assert rows[..w] == [Revision(0, true)] + failed + older[..retention - 1];
    assert rows[w..] == older[retention - 1..];
    ReadyAppend([Revision(0, true)] + failed, older[..retention - 1]);
    ReadyAppend([Revision(0, true)], failed);
    assert ReadyCount([Revision(0, true)]) == 1 by { AllReady([Revision(0, true)]); }
    ReadyLeft(rows, retention);
  }

  lemma {:induction false} AllReady(rows: seq<Revision>)
    requires forall i :: 0 <= i < |rows| ==> rows[i].ready
    ensures ReadyCount(rows) == |rows|
  {
    if rows != [] {
      AllReady(rows[..|rows| - 1]);
    }
  }

  lemma {:induction false} NoneReady(rows: seq<Revision>)
    requires forall i :: 0 <= i < |rows| ==> !rows[i].ready
    ensures ReadyCount(rows) == 0
  {
    if rows != [] {
      NoneReady(rows[..|rows| - 1]);
    }
  }

  // ---------------------------------------------------------------------------
  // Over every run of snapshots
  // ---------------------------------------------------------------------------

  /** A new row is the newest; a snapshot that completes becomes READY and prunes. */
  datatype Event = Request(id: nat) | Complete(index: nat)

  function Step(rows: seq<Revision>, retention: nat, e: Event): seq<Revision> {
    match e
    case Request(id) => [Revision(id, false)] + rows
    case Complete(i) =>
      if i < |rows| && !rows[i].ready then Pruned(rows[i := rows[i].(ready := true)], retention) else rows
  }

  function Run(rows: seq<Revision>, retention: nat, events: seq<Event>): seq<Revision> {
    if events == [] then rows
    else Step(Run(rows, retention, events[..|events| - 1]), retention, events[|events| - 1])
  }

  /** Before each completion at most 20 rows are not READY, hence at most 19 when it prunes. */
  ghost predicate FewOthers(rows: seq<Revision>, retention: nat, events: seq<Event>) {
    forall n :: 0 <= n < |events| && events[n].Complete? ==> OtherCount(Run(rows, retention, events[..n])) <= 20
  }

  lemma ReadyOne(rows: seq<Revision>, i: nat)
    requires i < |rows| && !rows[i].ready
    ensures ReadyCount(rows[i := rows[i].(ready := true)]) == ReadyCount(rows) + 1
  {
    var x := rows[i].(ready := true);
    assert rows == rows[..i] + [rows[i]] + rows[i + 1..];
    assert rows[i := x] == rows[..i] + [x] + rows[i + 1..];
    ReadyAppend(rows[..i] + [rows[i]], rows[i + 1..]);
    ReadyAppend(rows[..i] + [x], rows[i + 1..]);
    ReadyAppend(rows[..i], [rows[i]]);
    ReadyAppend(rows[..i], [x]);
    NoneReady([rows[i]]);
    AllReady([x]);
  }

  lemma StepKeepsRetention(rows: seq<Revision>, retention: nat, e: Event)
    requires ReadyCount(rows) <= retention
    requires e.Complete? ==> OtherCount(rows) <= 20
    ensures ReadyCount(Step(rows, retention, e)) <= retention
  {
    match e
    case Request(id) =>
      ReadyAppend([Revision(id, false)], rows);
      NoneReady([Revision(id, false)]);
    case Complete(i) =>
      if i < |rows| && !rows[i].ready {
        var rows' := rows[i := rows[i].(ready := true)];
        ReadyOne(rows, i);
        assert |rows'| <= retention + SLACK;
        assert rows'[|Window(rows', retention)|..] == [];
        RetentionHoldsExactlyWhen(rows', retention);
      }
  }

  /** With at most 19 rows that are not READY at every prune, and at most `retention` READY
      rows at the start, no run of snapshots ever leaves more than `retention` READY. */
  lemma {:induction false} RetentionHoldsForever(rows: seq<Revision>, retention: nat, events: seq<Event>)
    requires ReadyCount(rows) <= retention && FewOthers(rows, retention, events)
    ensures ReadyCount(Run(rows, retention, events)) <= retention
  {
    if events != [] {
      var most := events[..|events| - 1];
      assert forall n :: 0 <= n < |most| ==> most[..n] == events[..n] && most[n] == events[n];
      assert FewOthers(rows, retention, most);
      RetentionHoldsForever(rows, retention, most);
      StepKeepsRetention(Run(rows, retention, most), retention, events[|events| - 1]);
    }
  }

  // ---------------------------------------------------------------------------
  // The pruning loop
  // ---------------------------------------------------------------------------

  class RevisionTable {
    var rows: seq<Revision>   // newest first

    constructor (r: seq<Revision>)
      ensures rows == r
    {
      rows := r;
    }

    method Delete(id: nat)
      modifies this
      ensures rows == Without(old(rows), {id})
    {
      rows := Without(rows, {id});
    }

    /** `_prune_revisions`; `deletes(id)` says whether that delete works. Non-READY rows and
        the newest `retention` READY ones are never deleted, whatever fails. */
    method Prune(retention: nat, listed: bool, deletes: nat -> bool)
      modifies this
      ensures rows == if listed then Without(old(rows), Doomed(old(rows), retention, deletes)) else old(rows)
    {
      if !listed {
        return;
      }
      WithoutNone(rows);
      ghost var before := rows;
      var ready := ReadyRows(Window(rows, retention));
      assert IdsFrom(ready, retention, Least(retention, |ready|), deletes) == {};
      var i := retention;
      while i < |ready|
        invariant i >= retention
        invariant rows == Without(before, IdsFrom(ready, retention, Least(i, |ready|), deletes))
      {
        OneMoreGone(before, ready, retention, i, deletes);
        if deletes(ready[i].id) {
          Delete(ready[i].id);
        }
        i := i + 1;
      }
      DoomedIsTail(before, retention, deletes);
    }
  }

  lemma OneMoreGone(rows: seq<Revision>, ready: seq<Revision>, from: nat, i: nat, deletes: nat -> bool)
    requires from <= i < |ready|
    ensures var left := Without(rows, IdsFrom(ready, from, Least(i, |ready|), deletes));
            Without(rows, IdsFrom(ready, from, Least(i + 1, |ready|), deletes))
            == if deletes(ready[i].id) then Without(left, {ready[i].id}) else left
  {
    IdsFromStep(ready, from, i, deletes);
    WithoutTwice(rows, IdsFrom(ready, from, i, deletes), {ready[i].id});
  }

  function Without(rows: seq<Revision>, ids: set<nat>): seq<Revision> {
    if rows == [] then []
    else Without(rows[..|rows| - 1], ids) + (if rows[|rows| - 1].id in ids then [] else [rows[|rows| - 1]])
  }

  lemma {:induction false} WithoutNone(rows: seq<Revision>)
    ensures Without(rows, {}) == rows
  {
    if rows != [] {
      WithoutNone(rows[..|rows| - 1]);
    }
  }

  lemma {:induction false} WithoutTwice(rows: seq<Revision>, a: set<nat>, b: set<nat>)
    ensures Without(Without(rows, a), b) == Without(rows, a + b)
  {
    if rows != [] {
      var most, x := rows[..|rows| - 1], rows[|rows| - 1];
      WithoutTwice(most, a, b);
      if x.id !in a {
        assert (Without(most, a) + [x])[..|Without(most, a)|] == Without(most, a);
      } else {
        assert Without(most, a) + [] == Without(most, a);
      }
    }
  }

  /** The READY rows, in order. */
  function ReadyRows(rows: seq<Revision>): (r: seq<Revision>)
    ensures |r| == ReadyCount(rows)
  {
    if rows == [] then []
    else ReadyRows(rows[..|rows| - 1]) + (if rows[|rows| - 1].ready then [rows[|rows| - 1]] else [])
  }

  /** Ids of the deletable rows between two positions. */
  function IdsFrom(ready: seq<Revision>, from: nat, to: nat, deletes: nat -> bool): set<nat>
    requires to <= |ready|
  {
    set k | from <= k < to && deletes(ready[k].id) :: ready[k].id
  }

  lemma IdsFromStep(ready: seq<Revision>, from: nat, to: nat, deletes: nat -> bool)
    requires from <= to < |ready|
    ensures IdsFrom(ready, from, to + 1, deletes)
            == if deletes(ready[to].id) then IdsFrom(ready, from, to, deletes) + {ready[to].id}
               else IdsFrom(ready, from, to, deletes)
  {
  }

  /** Ids of the stale rows whose delete works. */
  function Doomed(rows: seq<Revision>, retention: nat, deletes: nat -> bool): set<nat> {
    set i | 0 <= i < |rows| && Stale(rows, retention, i) && deletes(rows[i].id) :: rows[i].id
  }

  /** Row `i`, when READY, is number `ReadyCount(rows[..i])` among the READY ones. */
  lemma {:induction false} ReadyIndex(rows: seq<Revision>, i: nat)
    requires i < |rows| && rows[i].ready
    ensures ReadyCount(rows[..i]) < |ReadyRows(rows)| && ReadyRows(rows)[ReadyCount(rows[..i])] == rows[i]
  {
    var most := rows[..|rows| - 1];
    if i < |most| {
      assert most[..i] == rows[..i] && most[i] == rows[i];
      ReadyIndex(most, i);
    } else {
      assert rows[..i] == most;
    }
  }

  lemma {:induction false} ReadyPlace(rows: seq<Revision>, k: nat) returns (i: nat)
    requires k < |ReadyRows(rows)|
    ensures i < |rows| && rows[i].ready && ReadyCount(rows[..i]) == k && ReadyRows(rows)[k] == rows[i]
  {
    var most := rows[..|rows| - 1];
    if k < |ReadyRows(most)| {
      i := ReadyPlace(most, k);
      assert most[..i] == rows[..i];
    } else {
      i := |most|;
      assert rows[..i] == most;
    }
  }

  /** The rows the loop visits are the stale ones. */
  lemma DoomedIsTail(rows: seq<Revision>, retention: nat, deletes: nat -> bool)
    ensures var ready := ReadyRows(Window(rows, retention));
            IdsFrom(ready, retention, |ready|, deletes) == Doomed(rows, retention, deletes)
  {
    var window := Window(rows, retention);
    var ready := ReadyRows(window);
    forall id | id in Doomed(rows, retention, deletes) ensures id in IdsFrom(ready, retention, |ready|, deletes) {
      var i :| 0 <= i < |rows| && Stale(rows, retention, i) && deletes(rows[i].id) && rows[i].id == id;
      assert window[..i] == rows[..i];
      ReadyIndex(window, i);
      assert ready[ReadyCount(rows[..i])].id == id;
    }
    forall id | id in IdsFrom(ready, retention, |ready|, deletes) ensures id in Doomed(rows, retention, deletes) {
      var k :| retention <= k < |ready| && deletes(ready[k].id) && ready[k].id == id;
      var i := ReadyPlace(window, k);
      assert window[..i] == rows[..i];
      assert Stale(rows, retention, i) && rows[i].id == id;
    }
  }

  /** With every delete working, what the loop leaves is `Pruned`. */
  lemma PruneIsPruned(rows: seq<Revision>, retention: nat)
    requires UniqueIds(rows)
    ensures Without(rows, Doomed(rows, retention, _ => true)) == Pruned(rows, retention)
  {
    PrunePrefix(rows, retention, |rows|);
    assert rows[..|rows|] == rows;
  }

  lemma {:induction false} PrunePrefix(rows: seq<Revision>, retention: nat, n: nat)
    requires UniqueIds(rows) && n <= |rows|
    ensures Without(rows[..n], Doomed(rows, retention, _ => true)) == Kept(rows, retention, n)
  {
    if n > 0 {
      PrunePrefix(rows, retention, n - 1);
      assert rows[..n][..n - 1] == rows[..n - 1];
      assert rows[n - 1].id in Doomed(rows, retention, _ => true) <==> Stale(rows, retention, n - 1);
    }
  }

  /** Whatever fails, a row that is not READY, or has fewer than `retention` newer READY rows,
      survives a prune. */
  lemma NewestSurvive(rows: seq<Revision>, retention: nat, deletes: nat -> bool, i: nat)
    requires UniqueIds(rows) && i < |rows|
    requires !rows[i].ready || ReadyCount(rows[..i]) < retention
    ensures rows[i] in Without(rows, Doomed(rows, retention, deletes))
  {
    assert rows[i].id !in Doomed(rows, retention, deletes);
    WithoutKeeps(rows, Doomed(rows, retention, deletes), i);
  }

  lemma {:induction false} WithoutKeeps(rows: seq<Revision>, ids: set<nat>, i: nat)
    requires i < |rows| && rows[i].id !in ids
    ensures rows[i] in Without(rows, ids)
  {
    var most := rows[..|rows| - 1];
    if i < |most| {
      assert most[i] == rows[i];
      WithoutKeeps(most, ids, i);
    }
  }
}
