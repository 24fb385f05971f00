/** Compute credits: what `_deduct_credits` does to a tenant's balance and to the ledger. */
module Billing {
  type Student = nat
  type Tenant = nat
  type PodId = nat
  type TaskId = nat

  datatype Row = Row(tenant: Tenant, student: Student, task: TaskId, pod: PodId, credits: real, ms: real)

  /** The tables the function reads and writes. */
  datatype Db = Db(
    students: map<Student, Tenant>,
    balances: map<Tenant, real>,
    baseCosts: map<PodId, real>,
    ledger: seq<Row>)

  /** One call: who ran what, as which task, for how long. */
  datatype Bill = Bill(student: Student, pod: PodId, task: TaskId, ms: real)

  function Max(x: real, y: real): real { if x >= y then x else y }

  function BaseCost(d: Db, pod: PodId): real { if pod in d.baseCosts then d.baseCosts[pod] else 1.0 }

  /** At least one cent, whatever the time and the price. */
  function Charge(d: Db, b: Bill): real { Max(0.01, b.ms / 1000.0 * BaseCost(d, b.pod)) }

  /** Whether there is anybody to charge. */
  predicate Payable(d: Db, b: Bill) { b.student in d.students && d.students[b.student] in d.balances }

  /** The row that records a bill. */
  function RowFor(d: Db, b: Bill): Row
    requires Payable(d, b)
  {
    Row(d.students[b.student], b.student, b.task, b.pod, Charge(d, b), b.ms)
  }

  function Deduct(d: Db, b: Bill): Db {
    if !Payable(d, b) then d
    else
      var row := RowFor(d, b);
      d.(balances := d.balances[row.tenant := Max(0.0, d.balances[row.tenant] - row.credits)],
         ledger := d.ledger + [row])
  }

  /** The bill has been settled: a known student's tenant has lost what the seconds cost at the
      price of the pod, but at least one cent, and not more than it had; one row says so. */
  predicate Settled(before: Db, after: Db, b: Bill) {
    if b.student !in before.students || before.students[b.student] !in before.balances then after == before
    else
      var tenant := before.students[b.student];
      var price := if b.pod in before.baseCosts then before.baseCosts[b.pod] else 1.0;
      && |after.ledger| == |before.ledger| + 1
      && var credits, balance := after.ledger[|before.ledger|].credits, before.balances[tenant];
         && (if b.ms * price >= 10.0 then 1000.0 * credits == b.ms * price else credits == 0.01)
         && after == before.(
                       ledger := before.ledger + [Row(tenant, b.student, b.task, b.pod, credits, b.ms)],
                       balances := before.balances[tenant := if balance >= credits then balance - credits else 0.0])
  }

  lemma ChargeMeans(d: Db, b: Bill)
    ensures var price := if b.pod in d.baseCosts then d.baseCosts[b.pod] else 1.0;
            if b.ms * price >= 10.0 then 1000.0 * Charge(d, b) == b.ms * price else Charge(d, b) == 0.01
  {
    var seconds, price := b.ms / 1000.0, BaseCost(d, b.pod);
    assert b.ms * price == 1000.0 * (seconds * price);
  }

  lemma DeductSettles(d: Db, b: Bill)
    ensures Settled(d, Deduct(d, b), b)
  {
    ChargeMeans(d, b);
    hide Charge;
  }

  /** The database, of which one session at a time is open. */
  class Database {
    var db: Db
    var asked: seq<Bill>           // every call of `_deduct_credits` so far
    const initial: Db
    const raises: nat -> bool      // which of the calls end in an exception

    /** The tables are what the calls that did not raise have made of the initial ones. */
    ghost predicate Valid()
      reads this
    {
      db == DeductAll(initial, Committed(asked, raises))
    }

    constructor (initial: Db, raises: nat -> bool)
      ensures Valid() && db == initial && asked == []
      ensures this.initial == initial && this.raises == raises
    {
      db, asked := initial, [];
      this.initial, this.raises := initial, raises;
    }

    /** `_deduct_credits`.  Any exception is swallowed, and rolls the session back. */
    method DeductCredits(b: Bill)
      requires Valid()
      modifies this
      ensures Valid() && asked == old(asked) + [b]
      ensures if raises(|old(asked)|) then db == old(db) else Settled(old(db), db, b)
    {
      CommittedMore(asked, raises, b);
      DeductSettles(db, b);
      hide Settled, Committed, DeductAll;
      var attempt := |asked|;
      asked := asked + [b];
      if raises(attempt) || b.student !in db.students {
        return;
      }
      var tenant := db.students[b.student];
      if tenant !in db.balances {
        return;
      }
      var baseCost := 1.0;
      if b.pod in db.baseCosts {
        baseCost := db.baseCosts[b.pod];
      }
      var credits := b.ms / 1000.0 * baseCost;
      if credits < 0.01 {
        credits := 0.01;
      }
      assert credits == Charge(db, b);
      var balance := db.balances[tenant] - credits;
      if balance < 0.0 {
        balance := 0.0;
      }
      var row := Row(tenant, b.student, b.task, b.pod, credits, b.ms);
      db := db.(balances := db.balances[tenant := balance], ledger := db.ledger + [row]);
    }
  }

  /** The bills whose calls did not raise. */
  function Committed(asked: seq<Bill>, raises: nat -> bool): seq<Bill> {
    if |asked| == 0 then []
    else Committed(asked[..|asked| - 1], raises) + if raises(|asked| - 1) then [] else [asked[|asked| - 1]]
  }

  lemma CommittedMore(asked: seq<Bill>, raises: nat -> bool, b: Bill)
    ensures var before, more := Committed(asked, raises), Committed(asked + [b], raises);
            && more == before + (if raises(|asked|) then [] else [b])
            && forall d: Db :: DeductAll(d, more) ==
                      if raises(|asked|) then DeductAll(d, before) else Deduct(DeductAll(d, before), b)
  {
    assert (asked + [b])[..|asked|] == asked;
    var before := Committed(asked, raises);
    assert (before + [b])[..|before|] == before;
    assert before + [] == before;
  }

  // ---------- closed form ----------

  /** A serial sequence of deductions. */
  function DeductAll(d: Db, bills: seq<Bill>): Db {
    if |bills| == 0 then d else Deduct(DeductAll(d, bills[..|bills| - 1]), bills[|bills| - 1])
  }

  /** The rows of one tenant, added up. */
  function Spent(rows: seq<Row>, t: Tenant): real {
    if |rows| == 0 then 0.0
    else Spent(rows[..|rows| - 1], t) + if rows[|rows| - 1].tenant == t then rows[|rows| - 1].credits else 0.0
  }

  predicate Charged(rows: seq<Row>, t: Tenant) { exists i :: 0 <= i < |rows| && rows[i].tenant == t }

  lemma SpentMore(rows: seq<Row>, r: Row, t: Tenant)
    ensures Spent(rows + [r], t) == Spent(rows, t) + if r.tenant == t then r.credits else 0.0
    ensures Charged(rows + [r], t) <==> Charged(rows, t) || r.tenant == t
  {
    var more := rows + [r];
    assert more[..|rows|] == rows && more[|rows|] == r;
    if Charged(rows, t) {
      var i :| 0 <= i < |rows| && rows[i].tenant == t;
      assert more[i].tenant == t;
    }
  }

  /** The balance that the initial one and the ledger's new rows determine. */
  function Expected(initial: real, rows: seq<Row>, t: Tenant): real {
    if Charged(rows, t) then Max(0.0, initial - Spent(rows, t)) else initial
  }

  function NewRows(d: Db, e: Db): seq<Row>
    requires |d.ledger| <= |e.ledger|
  {
    e.ledger[|d.ledger|..]
  }

  /** Deductions change balances and append to the ledger, and nothing else. */
  lemma {:induction false} OnlyAppends(d: Db, bills: seq<Bill>)
    ensures var e := DeductAll(d, bills);
            && |d.ledger| <= |e.ledger| && e.ledger == d.ledger + NewRows(d, e)
            && e.students == d.students && e.baseCosts == d.baseCosts && e.balances.Keys == d.balances.Keys
    decreases |bills|
  {
    if |bills| > 0 {
      OnlyAppends(d, bills[..|bills| - 1]);
    }
  }

  lemma NewRowsMore(d: Db, before: Db, b: Bill, t: Tenant)
    requires |d.ledger| <= |before.ledger| && Payable(before, b)
    ensures NewRows(d, Deduct(before, b)) == NewRows(d, before) + [RowFor(before, b)]
    ensures Spent(NewRows(d, Deduct(before, b)), t)
            == Spent(NewRows(d, before), t) + if before.students[b.student] == t then Charge(before, b) else 0.0
    ensures Charged(NewRows(d, Deduct(before, b)), t)
            <==> Charged(NewRows(d, before), t) || before.students[b.student] == t
  {
    hide Spent, Charged, Charge;
    SpentMore(NewRows(d, before), RowFor(before, b), t);
  }

  /** After any deductions, in any order and on any tenants, each balance is the initial one
      less what the ledger says was spent, or zero where that is negative. */
  lemma {:induction false} ClosedForm(d: Db, bills: seq<Bill>, t: Tenant)
    requires t in d.balances
    ensures var e := DeductAll(d, bills);
            t in e.balances && |d.ledger| <= |e.ledger| && e.balances[t] == Expected(d.balances[t], NewRows(d, e), t)
    decreases |bills|
  {
    OnlyAppends(d, bills);
    if |bills| == 0 {
      assert NewRows(d, d) == [];
    } else {
      var before, b := DeductAll(d, bills[..|bills| - 1]), bills[|bills| - 1];
      OnlyAppends(d, bills[..|bills| - 1]);
      ClosedForm(d, bills[..|bills| - 1], t);
      assert DeductAll(d, bills) == Deduct(before, b);
      hide DeductAll, Spent, Charged, Charge, NewRows;
      OneMoreDeduction(d.balances[t], d, before, b, t);
    }
  }

  lemma OneMoreDeduction(initial: real, d: Db, before: Db, b: Bill, t: Tenant)
    requires t in before.balances && |d.ledger| <= |before.ledger|
    requires before.balances[t] == Expected(initial, NewRows(d, before), t)
    ensures Deduct(before, b).balances[t] == Expected(initial, NewRows(d, Deduct(before, b)), t)
  {
    if Payable(before, b) {
      AtLeastOneCent(before, b);
      NewRowsMore(d, before, b, t);
      if !Charged(NewRows(d, before), t) {
        NothingSpent(NewRows(d, before), t);
      }
    }
    hide Spent, Charged, Charge, NewRows;
  }

  lemma {:induction false} NothingSpent(rows: seq<Row>, t: Tenant)
    requires !Charged(rows, t)
    ensures Spent(rows, t) == 0.0
    decreases |rows|
  {
    if |rows| > 0 {
      var fewer := rows[..|rows| - 1];
      assert forall i :: 0 <= i < |fewer| ==> fewer[i] == rows[i];
      NothingSpent(fewer, t);
    }
  }

  lemma AtLeastOneCent(d: Db, b: Bill)
    ensures Charge(d, b) >= 0.01
  {
  }

  /** A balance that starts non-negative stays so; one that starts negative is raised to zero
      by the first charge. */
  lemma NeverNegative(d: Db, bills: seq<Bill>, t: Tenant)
    requires t in d.balances
    ensures var e := DeductAll(d, bills);
            && t in e.balances && |d.ledger| <= |e.ledger|
            && (e.balances[t] >= 0.0 <==> (d.balances[t] >= 0.0 || Charged(NewRows(d, e), t)))
  {
    ClosedForm(d, bills, t);
    hide DeductAll, Charged, Spent, NewRows;
  }

  // ---------- the order does not matter ----------

  /** What the bills cost a tenant, by the tables as they were before any of them. */
  function Due(d: Db, bills: seq<Bill>, t: Tenant): real {
    if |bills| == 0 then 0.0
    else Due(d, bills[..|bills| - 1], t) + Cost(d, bills[|bills| - 1], t)
  }

  predicate Pays(d: Db, b: Bill, t: Tenant) { Payable(d, b) && d.students[b.student] == t }

  function Cost(d: Db, b: Bill, t: Tenant): real { if Pays(d, b, t) then Charge(d, b) else 0.0 }

  lemma {:induction false} LedgerIsDue(d: Db, bills: seq<Bill>, t: Tenant)
    requires t in d.balances
    ensures var e := DeductAll(d, bills);
            && |e.ledger| >= |d.ledger|
            && Spent(NewRows(d, e), t) == Due(d, bills, t)
            && (Charged(NewRows(d, e), t) <==> exists b :: b in bills && Pays(d, b, t))
    decreases |bills|
  {
    OnlyAppends(d, bills);
    if |bills| == 0 {
      assert NewRows(d, d) == [];
    } else {
      var fewer, b := bills[..|bills| - 1], bills[|bills| - 1];
      var before := DeductAll(d, fewer);
      OnlyAppends(d, fewer);
      LedgerIsDue(d, fewer, t);
      assert bills == fewer + [b];
      assert DeductAll(d, bills) == Deduct(before, b);
      assert Due(d, bills, t) == Due(d, fewer, t) + Cost(d, b, t);
      SameTerms(d, before, b);
      hide DeductAll, Spent, Charged, Charge, NewRows, Due, Payable;
      if Payable(before, b) {
        NewRowsMore(d, before, b, t);
      }
      assert (exists c :: c in bills && Pays(d, c, t)) <==> Pays(d, b, t) || exists c :: c in fewer && Pays(d, c, t);
    }
  }

  /** A bill costs the same before and after other bills. */
  lemma SameTerms(d: Db, e: Db, b: Bill)
    requires e.students == d.students && e.baseCosts == d.baseCosts && e.balances.Keys == d.balances.Keys
    ensures Payable(e, b) <==> Payable(d, b)
    ensures Charge(e, b) == Charge(d, b)
  {
  }

  lemma {:induction false} DueWithout(d: Db, bills: seq<Bill>, i: nat, t: Tenant)
    requires i < |bills|
    ensures Due(d, bills, t) == Due(d, bills[..i] + bills[i + 1..], t) + Cost(d, bills[i], t)
    decreases |bills|
  {
    var fewer := bills[..|bills| - 1];
    if i == |bills| - 1 {
      assert bills[..i] + bills[i + 1..] == fewer;
    } else {
      DueWithout(d, fewer, i, t);
      var rest := bills[..i] + bills[i + 1..];
      assert rest[..|rest| - 1] == fewer[..i] + fewer[i + 1..];
    }
  }

  lemma Removed(s: seq<Bill>, i: nat)
    requires i < |s|
    ensures multiset(s) == multiset(s[..i] + s[i + 1..]) + multiset{s[i]}
  {
    assert s == s[..i] + ([s[i]] + s[i + 1..]);
  }

  lemma Cancel(x: multiset<Bill>, y: multiset<Bill>, b: Bill)
    requires x + multiset{b} == y + multiset{b}
    ensures x == y
  {
    assert x == x + multiset{b} - multiset{b} && y == y + multiset{b} - multiset{b};
  }

  lemma {:induction false} DueOfPermutation(d: Db, xs: seq<Bill>, ys: seq<Bill>, t: Tenant)
    requires multiset(xs) == multiset(ys)
    ensures Due(d, xs, t) == Due(d, ys, t)
    decreases |xs|
  {
    if |xs| == 0 {
      assert |multiset(ys)| == 0;
    } else {
      var b := xs[|xs| - 1];
      assert b in multiset(ys);
      var i :| 0 <= i < |ys| && ys[i] == b;
      var fewer, rest := xs[..|xs| - 1], ys[..i] + ys[i + 1..];
      Removed(xs, |xs| - 1);
      Removed(ys, i);
      assert xs[..|xs| - 1] + xs[|xs|..] == fewer;
      Cancel(multiset(fewer), multiset(rest), b);
      DueOfPermutation(d, fewer, rest, t);
      DueWithout(d, ys, i, t);
    }
  }

  /** The same bills in another order leave the same balances. */
  lemma OrderIrrelevant(d: Db, xs: seq<Bill>, ys: seq<Bill>, t: Tenant)
    requires multiset(xs) == multiset(ys) && t in d.balances
    ensures t in DeductAll(d, xs).balances && t in DeductAll(d, ys).balances
    ensures DeductAll(d, xs).balances[t] == DeductAll(d, ys).balances[t]
  {
    ClosedForm(d, xs, t);
    ClosedForm(d, ys, t);
    LedgerIsDue(d, xs, t);
    LedgerIsDue(d, ys, t);
    DueOfPermutation(d, xs, ys, t);
    assert forall b :: b in xs <==> b in multiset(xs);
    assert forall b :: b in ys <==> b in multiset(ys);
  }
}
