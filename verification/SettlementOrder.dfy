/**
  Settlement transactions in any order: what Commutation shows of the walk up the tree,
  carried over to runs of the database.
 */
module SettlementOrder {
  import opened Model
  import opened Hierarchy
  import opened BucketFill
  import opened Database
  import opened Requests
  import opened Commutation
  import opened PathIndependence

  ghost function BillOf(db: Db, e: Event): Bill
    requires Settles(db, e)
  {
    Bill(FirstHold(db.holds, e.request).value.budget, e.cost)
  }

  ghost function BillsOf(db: Db, es: seq<Event>): (bills: seq<Bill>)
    requires AllSettle(db, es)
    ensures |bills| == |es|
    ensures forall i :: 0 <= i < |es| ==> bills[i] == BillOf(db, es[i])
  {
    seq(|es|, i requires 0 <= i < |es| => BillOf(db, es[i]))
  }

  lemma BillsSnoc(db: Db, es: seq<Event>)
    requires AllSettle(db, es) && es != []
    ensures var init, e := es[..|es| - 1], es[|es| - 1];
            AllSettle(db, init) && Settles(db, e) && BillsOf(db, es) == BillsOf(db, init) + [BillOf(db, e)]
  {
    assert es[|es| - 1] in es;
  }

  lemma BillsPayable(db: Db, es: seq<Event>)
    requires Valid(db) && AllSettle(db, es)
    ensures Payable(db.rows, BillsOf(db, es))
  {
    var bills := BillsOf(db, es);
    forall b | b in bills
      ensures b.budget in db.rows && 0.0 <= b.cost
    {
      var i :| 0 <= i < |bills| && bills[i] == b;
      assert es[i] in es;
    }
  }

  /** Filling depends only on the shape of the table and the usages it starts from. */
  lemma {:induction false} FillUpShape(rows: map<Id, Budget>, other: map<Id, Budget>, rank: map<Id, nat>, u: Usages,
                                       id: Id, cost: real)
    requires Ranked(rows, rank) && Ranked(other, rank) && SameShape(rows, other)
    requires u.Keys == rows.Keys && id in rows
    ensures FillUp(rows, rank, u, id, cost) == FillUp(other, rank, u, id, cost)
    decreases rank[id]
  {
    assert RankedAt(rows, rank, id);
    var b := RowAt(rows, u, id);
    if b.config.parent.Some? {
      FillUpShape(rows, other, rank, u[id := u[id] + Charge(b, cost)], b.config.parent.value, Rest(b, cost));
    }
  }

  lemma {:induction false} FillAllSnoc(rows: map<Id, Budget>, rank: map<Id, nat>, u: Usages, bills: seq<Bill>, x: Bill)
    requires Ranked(rows, rank) && u.Keys == rows.Keys && Payable(rows, bills)
    requires x.budget in rows && 0.0 <= x.cost
    ensures Payable(rows, bills + [x])
    ensures FillAll(rows, rank, u, bills).Keys == rows.Keys
    ensures FillAll(rows, rank, u, bills + [x]) == FillUp(rows, rank, FillAll(rows, rank, u, bills), x.budget, x.cost)
    decreases |bills|
  {
    if bills == [] {
      FillAllCons(rows, rank, u, x, []);
      assert [] + [x] == [x] + [];
    } else {
      var y, rest := bills[0], bills[1..];
      FillAllSnoc(rows, rank, FillUp(rows, rank, u, y.budget, y.cost), rest, x);
      FillAllCons(rows, rank, u, y, rest + [x]);
      assert bills + [x] == [y] + (rest + [x]);
    }
  }

  lemma SettleFillsTree(db: Db, rank: map<Id, nat>, r: RequestId, cost: real, now: nat)
    requires Valid(db) && Ranked(db.rows, rank) && FirstHold(db.holds, r).Some?
    requires InLevelOrder(db.rows, FirstHold(db.holds, r).value.budget)
    ensures FirstHold(db.holds, r).value.budget in db.rows
    ensures UsagesOf(Settle(db, r, cost, now).rows) ==
              FillUp(db.rows, rank, UsagesOf(db.rows), FirstHold(db.holds, r).value.budget, cost)
  {
    var after := Settle(db, r, cost, now).rows;
    SnapshotFacts(db, r);
    assert after.Keys == db.rows.Keys;
    forall i | i in db.rows
      ensures UsagesOf(after)[i] ==
                FillUp(db.rows, rank, UsagesOf(db.rows), FirstHold(db.holds, r).value.budget, cost)[i]
    {
      SettleFillsUp(db, rank, r, cost, now, i);
    }
  }

  /** One settlement, as a fill of the tree of an earlier state of the same shape. */
  lemma SettleFillsShape(db: Db, at: Db, rank: map<Id, nat>, e: Event)
    requires Valid(db) && Valid(at) && SameShape(db.rows, at.rows) && Settles(at, e)
    requires Ranked(db.rows, rank) && LevelsAscend(db.rows)
    ensures var id := FirstHold(at.holds, e.request).value.budget;
            id in db.rows && UsagesOf(Step(at, e).rows) == FillUp(db.rows, rank, UsagesOf(at.rows), id, e.cost)
  {
    RankedShape(db.rows, at.rows, rank);
    ChainLevels(at.rows, rank, FirstHold(at.holds, e.request).value.budget);
    SettleFillsTree(at, rank, e.request, e.cost, e.now);
    FillUpShape(db.rows, at.rows, rank, UsagesOf(at.rows), FirstHold(at.holds, e.request).value.budget, e.cost);
  }

  /** A run of settlements fills the tree bill by bill. */
  lemma {:induction false} BatchRun(db: Db, rank: map<Id, nat>, es: seq<Event>)
    requires Valid(db) && Ranked(db.rows, rank) && LevelsAscend(db.rows) && Batch(db, es)
    ensures Payable(db.rows, BillsOf(db, es))
    ensures UsagesOf(Run(db, es).rows) == FillAll(db.rows, rank, UsagesOf(db.rows), BillsOf(db, es))
  {
    BillsPayable(db, es);
    if es != [] {
      var init, e := es[..|es| - 1], es[|es| - 1];
      BillsSnoc(db, es);
      BatchRun(db, rank, init);
      RunKeepsValid(db, init);
      BatchStep(db, es);
      SettleFillsShape(db, Run(db, init), rank, e);
      FillAllSnoc(db.rows, rank, UsagesOf(db.rows), BillsOf(db, init), BillOf(db, e));
    }
  }

  /** A settlement adds its bill wherever it stands. */
  lemma OneMoreBill(db: Db, before: seq<Event>, x: Event, after: seq<Event>)
    requires AllSettle(db, before) && Settles(db, x) && AllSettle(db, after)
    ensures AllSettle(db, before + [x] + after) && AllSettle(db, before + after)
    ensures multiset(BillsOf(db, before + [x] + after)) ==
              multiset(BillsOf(db, before + after)) + multiset{BillOf(db, x)}
  {
    var all, less := BillsOf(db, before + [x] + after), BillsOf(db, before + after);
    var k := |before|;
    assert all[..k] == less[..k];
    assert all[k + 1..] == less[k..];
    InsertedAt(all, less, k);
  }

  lemma InsertedAt(all: seq<Bill>, less: seq<Bill>, k: nat)
    requires k < |all| && k <= |less| && all[..k] == less[..k] && all[k + 1..] == less[k..]
    ensures multiset(all) == multiset(less) + multiset{all[k]}
  {
    assert all == all[..k] + [all[k]] + all[k + 1..];
    assert less == less[..k] + less[k..];
  }

  /** Reordered settlements send the same bills. */
  lemma {:induction false} BillsPermute(db: Db, xs: seq<Event>, ys: seq<Event>)
    requires AllSettle(db, xs) && AllSettle(db, ys) && multiset(xs) == multiset(ys)
    ensures multiset(BillsOf(db, xs)) == multiset(BillsOf(db, ys))
    decreases |xs|
  {
    if xs == [] {
      assert |multiset(ys)| == |ys|;
    } else {
      var x, tail := xs[0], xs[1..];
      assert xs == [] + [x] + tail && [] + tail == tail && xs == [x] + tail;
      assert x in xs && forall e :: e in tail ==> e in xs;
      OneMoreBill(db, [], x, tail);
      var before, after := SplitAt(x, tail, ys);
      assert AllSettle(db, before) && AllSettle(db, after) by {
        assert forall e :: e in before || e in after ==> e in ys;
      }
      OneMoreBill(db, before, x, after);
      BillsPermute(db, tail, before + after);
    }
  }

  /**
    Any two orders of the same settlements leave the same usage on every budget, if
    children never stand at a higher level than their parents.
   */
  lemma SettlementOrderIrrelevant(db: Db, rank: map<Id, nat>, xs: seq<Event>, ys: seq<Event>)
    requires Valid(db) && Ranked(db.rows, rank) && LevelsAscend(db.rows)
    requires Batch(db, xs) && Batch(db, ys) && multiset(xs) == multiset(ys)
    ensures UsagesOf(Run(db, xs).rows) == UsagesOf(Run(db, ys).rows)
  {
    BatchRun(db, rank, xs);
    BatchRun(db, rank, ys);
    BillsPermute(db, xs, ys);
    OrderIrrelevant(db.rows, rank, UsagesOf(db.rows), BillsOf(db, xs), BillsOf(db, ys));
  }
}
