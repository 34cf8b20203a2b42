/** How a spend is divided over plan, carryover and purchased credits, and what a serial
    run of spends adds up to. */
module CreditWallet {
  import opened Basics
  import opened CreditLedger

  datatype Balances = Balances(plan: int, carryover: int, purchased: int) {
    /** The constructor's check: no pool is negative. */
    predicate Valid() {
      plan >= 0 && carryover >= 0 && purchased >= 0
    }
  }

  /** When the carryover expires, the time of the spend, and the user's preference. */
  datatype Terms = Terms(expires: Option<int>, now: int, purchasedFirst: bool)

  function Min(a: int, b: int): int {
    if a < b then a else b
  }

  /** The boundary instant itself is expired; no expiry recorded means none. */
  predicate Expired(t: Terms) {
    t.expires.Some? && t.now >= t.expires.value
  }

  function LiveCarryover(carryover: int, t: Terms): int {
    if carryover <= 0 then 0 else if Expired(t) then 0 else carryover
  }

  function Available(b: Balances, t: Terms): int {
    b.plan + LiveCarryover(b.carryover, t) + b.purchased
  }

  /** `consume_from_wallet`: carryover first, then the two other pools by preference. */
  function Consume(b: Balances, units: int, t: Terms): Balances {
    if units <= 0 then b
    else
      var fromCarryover := Min(LiveCarryover(b.carryover, t), units);
      var rest := units - fromCarryover;
      if t.purchasedFirst then
        var fromPurchased := Min(b.purchased, rest);
        var fromPlan := Min(b.plan, rest - fromPurchased);
        Balances(b.plan - fromPlan, b.carryover - fromCarryover, b.purchased - fromPurchased)
      else
        var fromPlan := Min(b.plan, rest);
        var fromPurchased := Min(b.purchased, rest - fromPlan);
        Balances(b.plan - fromPlan, b.carryover - fromCarryover, b.purchased - fromPurchased)
  }

  /** A spend takes exactly what was asked or everything there is, never goes negative,
      leaves an expired carryover alone, and touches a pool only when the ones before it
      are used up. */
  lemma ConsumeIsExact(b: Balances, units: nat, t: Terms)
    requires b.Valid()
    ensures var r := Consume(b, units, t);
            && r.Valid()
            && Available(b, t) - Available(r, t) == Min(units, Available(b, t))
            && b.carryover - r.carryover == LiveCarryover(b.carryover, t) - LiveCarryover(r.carryover, t)
            && (r.plan + r.purchased < b.plan + b.purchased ==> LiveCarryover(r.carryover, t) == 0)
            && (!t.purchasedFirst && r.purchased < b.purchased ==> r.plan == 0)
            && (t.purchasedFirst && r.plan < b.plan ==> r.purchased == 0)
  {
  }

  /** A spend touches the carryover exactly when there is some and either no expiry is recorded
      or it lies strictly in the future; it is then spent before anything else. */
  lemma CarryoverSpentExactlyWhen(b: Balances, units: nat, t: Terms)
    requires b.Valid() && units > 0
    ensures var r := Consume(b, units, t);
            && (r.carryover < b.carryover <==> b.carryover > 0 && (t.expires == None || t.now < t.expires.value))
            && (b.carryover > 0 && (t.expires == None || t.now < t.expires.value) ==>
                  b.carryover - r.carryover == if units < b.carryover then units else b.carryover)
  {
  }

  /** Spending in two portions is spending their sum. */
  lemma ConsumeAdds(b: Balances, u: nat, v: nat, t: Terms)
    requires b.Valid()
    ensures Consume(Consume(b, u, t), v, t) == Consume(b, u + v, t)
  {
    ConsumeIsExact(b, u, t);
    var live := LiveCarryover(b.carryover, t);
    var c := Consume(b, u, t);
    assert LiveCarryover(c.carryover, t) == if u <= live then live - u else 0;
  }

  /** The wallet row: carryover and purchased credits. */
  datatype WalletRow = WalletRow(carryover: int, purchased: int)

  /** The spends of workers on one user's wallet: worker `w` charges `units(w)` on the terms
      it finds, with its own time and preference. */
  function Charging(grant: int, units: nat -> int, terms: nat -> Terms): Spending<int, WalletRow> {
    Spending(grant, (w: nat, plan: int, row: WalletRow) =>
      var r := Consume(Balances(plan, row.carryover, row.purchased), units(w), terms(w));
      (r.plan, WalletRow(r.carryover, r.purchased)))
  }

  function Total(units: nat -> int, order: seq<nat>): int {
    if order == [] then 0 else Total(units, order[..|order| - 1]) + units(order[|order| - 1])
  }

  /** The balances a spend starts from; a missing bucket is the tier's grant. */
  function BalancesOf(grant: int, db: Db<int, WalletRow>): Balances {
    Balances(if db.bucket.Some? then db.bucket.value else grant, db.wallet.carryover, db.wallet.purchased)
  }

  function Worth(b: Balances): int {
    b.plan + b.carryover + b.purchased
  }

  function Spendable(b: Balances, expired: bool): int {
    b.plan + b.purchased + if expired then 0 else b.carryover
  }

  /** The charges one after the other. */
  function Spends(b: Balances, units: nat -> int, terms: nat -> Terms, order: seq<nat>): Balances {
    if order == [] then b
    else
      var w := order[|order| - 1];
      Consume(Spends(b, units, terms, order[..|order| - 1]), units(w), terms(w))
  }

  lemma {:induction false} SerialIsSpends(grant: int, units: nat -> int, terms: nat -> Terms, start: Db<int, WalletRow>, order: seq<nat>)
    ensures BalancesOf(grant, Serial(Charging(grant, units, terms), start, order))
         == Spends(BalancesOf(grant, start), units, terms, order)
  {
    if order != [] {
      SerialIsSpends(grant, units, terms, start, order[..|order| - 1]);
    }
  }

  /** What the charges take: each what it asks or everything spendable at its own time. */
  function Taken(b: Balances, units: nat -> int, terms: nat -> Terms, order: seq<nat>): int {
    if order == [] then 0
    else
      var most, w := order[..|order| - 1], order[|order| - 1];
      Taken(b, units, terms, most) + Min(units(w), Available(Spends(b, units, terms, most), terms(w)))
  }

  /** Whatever the times and preferences, nothing is lost or taken beyond that, and no pool
      goes negative. */
  lemma {:induction false} SpendsTake(b: Balances, units: nat -> int, terms: nat -> Terms, order: seq<nat>)
    requires (forall w :: units(w) >= 0) && b.Valid()
    ensures var end := Spends(b, units, terms, order);
            end.Valid() && Worth(b) - Worth(end) == Taken(b, units, terms, order)
  {
    if order != [] {
      var most, w := order[..|order| - 1], order[|order| - 1];
      SpendsTake(b, units, terms, most);
      ConsumeIsExact(Spends(b, units, terms, most), units(w), terms(w));
    }
  }

  /** Unless the carryover expires in between, that is the sum of the charges or everything,
      whatever the order and the preferences. */
  lemma {:induction false} SpendsTakeTheSum(b: Balances, units: nat -> int, terms: nat -> Terms, order: seq<nat>, expired: bool)
    requires (forall w :: units(w) >= 0) && b.Valid()
    requires forall i :: 0 <= i < |order| ==> Expired(terms(order[i])) == expired
    ensures var end := Spends(b, units, terms, order);
            && Total(units, order) >= 0 && end.Valid()
            && Spendable(b, expired) - Spendable(end, expired) == Min(Total(units, order), Spendable(b, expired))
            && (expired ==> end.carryover == b.carryover)
  {
    if order != [] {
      var most, w := order[..|order| - 1], order[|order| - 1];
      SpendsTakeTheSum(b, units, terms, most, expired);
      ConsumeIsExact(Spends(b, units, terms, most), units(w), terms(w));
      assert Expired(terms(order[|order| - 1])) == expired;
    }
  }

  /** On the same terms throughout, any order of charges equals one charge of their sum. */
  lemma {:induction false} SpendsAreOne(b: Balances, units: nat -> int, terms: nat -> Terms, order: seq<nat>, t: Terms)
    requires (forall w :: units(w) >= 0) && (forall w :: terms(w) == t) && b.Valid()
    ensures Total(units, order) >= 0
    ensures Spends(b, units, terms, order) == Consume(b, Total(units, order), t)
  {
    if order != [] {
      var most, w := order[..|order| - 1], order[|order| - 1];
      SpendsAreOne(b, units, terms, most, t);
      OneMoreSpend(b, Spends(b, units, terms, most), Total(units, most), units(w), t);
      assert Total(units, order) == Total(units, most) + units(w);
    } else {
      assert Total(units, order) == 0;
    }
  }

  lemma OneMoreSpend(b: Balances, m: Balances, spent: nat, more: nat, t: Terms)
    requires b.Valid() && m == Consume(b, spent, t)
    ensures Consume(m, more, t) == Consume(b, spent + more, t)
  {
    ConsumeAdds(b, spent, more, t);
  }

  /** Workers charging the same user at once, none overtaken, from a missing bucket or an
      existing one, each with its own time and preference: bucket and wallet row together
      lose exactly what the committed charges take one after the other; that is their sum or
      everything spendable, unless the carryover expires in between. */
  lemma ChargesAddUp(grant: int, units: nat -> int, terms: nat -> Terms, start: Db<int, WalletRow>, schedule: seq<nat>, expired: bool)
    requires (forall w :: units(w) >= 0) && BalancesOf(grant, start).Valid()
    requires !Overtakes(start.bucket.Some?, schedule)
    ensures var l := Run(Charging(grant, units, terms), Start(start), schedule);
            var b, end := BalancesOf(grant, start), BalancesOf(grant, l.db);
            && end.Valid() && Worth(b) - Worth(end) == Taken(b, units, terms, l.commits)
            && ((forall i :: 0 <= i < |l.commits| ==> Expired(terms(l.commits[i])) == expired) ==>
                  Spendable(b, expired) - Spendable(end, expired) == Min(Total(units, l.commits), Spendable(b, expired)))
  {
    var p := Charging(grant, units, terms);
    SerialExactlyWhen(p, start, schedule);
    var commits := Run(p, Start(start), schedule).commits;
    SerialIsSpends(grant, units, terms, start, commits);
    SpendsTake(BalancesOf(grant, start), units, terms, commits);
    if forall i :: 0 <= i < |commits| ==> Expired(terms(commits[i])) == expired {
      SpendsTakeTheSum(BalancesOf(grant, start), units, terms, commits, expired);
    }
  }

  /** Steps of other workers leave a worker where it is, so the contract of `Await` below
      allows every interference. */
  lemma {:induction false} OthersLeaveMe<B, W>(p: Spending<B, W>, l: Ledger<B, W>, others: seq<nat>, me: nat)
    requires forall i :: 0 <= i < |others| ==> others[i] != me
    ensures At(Run(p, l, others), me) == At(l, me)
    decreases |others|
  {
    if others != [] {
      assert others[0] != me;
      OthersLeaveMe(p, Step(p, l, others[0]), others[1..], me);
    }
  }

  // ---------------------------------------------------------------------------
  // The repository as code
  // ---------------------------------------------------------------------------

  /** One worker's session on the shared rows; other workers act at every await. */
  class CreditRepository {
    const me: nat
    const grant: int
    const units: nat -> int
    const terms: nat -> Terms
    ghost const first: Db<int, WalletRow>
    var bucket: Option<int>
    var wallet: WalletRow
    ghost var schedule: seq<nat>

    ghost function Model(): Ledger<int, WalletRow>
      reads this
    {
      Run(Charging(grant, units, terms), Start(first), schedule)
    }

    ghost predicate Valid()
      reads this
    {
      Model().db == Db(bucket, wallet)
    }

    ghost function Pc(): CreditLedger.Pc<int, WalletRow>
      reads this
    {
      At(Model(), me)
    }

    constructor (w: nat, g: int, u: nat -> int, t: nat -> Terms, db: Db<int, WalletRow>)
      ensures Valid() && me == w && grant == g && units == u && terms == t && first == db
      ensures schedule == [] && Pc() == Begin(false)
    {
      me, grant, units, terms, first := w, g, u, t, db;
      bucket, wallet := db.bucket, db.wallet;
      schedule := [];
    }

    /** An await: callers know only that other workers took steps. */
    method Await()
      requires Valid()
      modifies this
      ensures Valid() && old(schedule) <= schedule && Pc() == old(Pc())
      ensures forall i :: |old(schedule)| <= i < |schedule| ==> schedule[i] != me
    {
    }

    ghost method Did()
      modifies this`schedule
      ensures schedule == old(schedule) + [me]
      ensures Model() == Step(Charging(grant, units, terms), old(Model()), me)
    {
      var p := Charging(grant, units, terms);
      RunAppend(p, Start(first), schedule, [me]);
      assert [me][1..] == [];
      assert Run(p, Model(), [me]) == Run(p, Step(p, Model(), me), []);
      schedule := schedule + [me];
    }

    /** `get_credit`. */
    method ReadBucket(ghost retried: bool) returns (credit: Option<int>, ghost seen: nat)
      requires Valid() && Pc() == Begin(retried)
      modifies this
      ensures Valid() && old(schedule) <= schedule && Pc() == HasBucket(credit, seen, retried)
    {
      Await();
      credit, seen := bucket, |Model().commits|;
      Did();
    }

    /** `get_wallet`. */
    method ReadWallet(ghost credit: Option<int>, ghost seen: nat, ghost retried: bool) returns (row: WalletRow)
      requires Valid() && Pc() == HasBucket(credit, seen, retried)
      modifies this
      ensures Valid() && old(schedule) <= schedule && Pc() == HasBoth(credit, row, seen, retried)
    {
      Await();
      row := wallet;
      Did();
    }

    /** The lookup at the start of `save_credit`. */
    method Lookup(ghost credit: Option<int>, ghost row: WalletRow, ghost seen: nat, ghost retried: bool) returns (found: bool)
      requires Valid() && Pc() == HasBoth(credit, row, seen, retried)
      modifies this
      ensures Valid() && old(schedule) <= schedule && Pc() == Probed(credit, row, found, seen, retried)
    {
      Await();
      found := bucket.Some?;
      Did();
    }

    /** The commit of `save_credit`, bucket and wallet together; a second insert is refused. */
    method Commit(spent: Balances, found: bool, ghost credit: Option<int>, ghost row: WalletRow, ghost seen: nat, ghost retried: bool)
      returns (ok: bool)
      requires Valid() && Pc() == Probed(credit, row, found, seen, retried)
      requires spent == Consume(Balances(if credit.Some? then credit.value else grant, row.carryover, row.purchased), units(me), terms(me))
      modifies this
      ensures Valid() && old(schedule) <= schedule
      ensures ok ==> Pc() == Finished && bucket == Some(spent.plan)
      ensures !ok ==> Pc() == if retried then Refused else Begin(true)
    {
      Await();
      ok := found || bucket.None?;
      if ok {
        bucket := Some(spent.plan);
        wallet := WalletRow(spent.carryover, spent.purchased);
      }
      Did();
    }

    /** `_consume_once`: `None` means the IntegrityError was raised to the caller. */
    method ConsumeOnce(retried: bool) returns (remaining: Option<int>)
      requires Valid() && Pc() == Begin(retried)
      modifies this
      ensures Valid() && old(schedule) <= schedule
      ensures remaining.Some? ==> Pc() == Finished && bucket == remaining
      ensures remaining.None? ==> Pc() == Refused
      decreases !retried
    {
      var credit, seen := ReadBucket(retried);
      var row := ReadWallet(credit, seen, retried);
      var plan := if credit.Some? then credit.value else grant;
      var spent := Consume(Balances(plan, row.carryover, row.purchased), units(me), terms(me));
      var found := Lookup(credit, row, seen, retried);
      var ok := Commit(spent, found, credit, row, seen, retried);
      if ok {
        return Some(spent.plan);
      }
      if retried {
        return None;
      }
      remaining := ConsumeOnce(true);
    }

    /** The retry never fails, so a charge always comes to a commit. */
    method Charge() returns (remaining: int)
      requires Valid() && Pc() == Begin(false)
      modifies this
      ensures Valid() && old(schedule) <= schedule && Pc() == Finished && bucket == Some(remaining)
    {
      var r := ConsumeOnce(false);
      SerialUnlessOvertaken(Charging(grant, units, terms), first, schedule);
      remaining := r.value;
    }
  }
}
