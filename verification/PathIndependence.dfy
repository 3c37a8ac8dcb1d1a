/**
  Settlements that start from the same budget charge every budget as one settlement of
  their total cost would, on any table: with isolated budgets, with levels in any order,
  and with cyclic parents.
 */
module PathIndependence {
  import opened Model
  import opened Hierarchy
  import opened BucketFill
  import opened Database
  import opened Requests

  // ----- The same path, read at two times ----------------------------------

  lemma {:induction false} OfTypeIds(bs: seq<Budget>, cs: seq<Budget>, t: EntityType)
    requires |bs| == |cs| && forall k :: 0 <= k < |bs| ==> bs[k].id == cs[k].id && bs[k].entity == cs[k].entity
    ensures Ids(OfType(bs, t)) == Ids(OfType(cs, t))
  {
    if bs != [] {
      OfTypeIds(bs[..|bs| - 1], cs[..|cs| - 1], t);
    }
  }

  lemma SortedIds(bs: seq<Budget>, cs: seq<Budget>)
    requires |bs| == |cs| && forall k :: 0 <= k < |bs| ==> bs[k].id == cs[k].id && bs[k].entity == cs[k].entity
    ensures Ids(Sorted(bs)) == Ids(Sorted(cs))
  {
    OfTypeIds(bs, cs, User);
    OfTypeIds(bs, cs, Team);
    OfTypeIds(bs, cs, Org);
    IdsOfGroups(bs);
    IdsOfGroups(cs);
  }

  lemma IdsOfGroups(bs: seq<Budget>)
    ensures Ids(Sorted(bs)) == Ids(OfType(bs, User)) + Ids(OfType(bs, Team)) + Ids(OfType(bs, Org))
  {
  }

  lemma PathIds(rows: map<Id, Budget>, other: map<Id, Budget>, id: Id)
    requires SameShape(rows, other)
    ensures Ids(Path(rows, id)) == Ids(Path(other, id))
  {
    ChainShape(rows, other, id, rows.Keys);
    SortedIds(RowsOf(rows, Chain(rows, id)), RowsOf(other, Chain(other, id)));
  }

  /** A fill looks only at ids, configurations and usages. */
  ghost predicate FillsAlike(path: seq<Budget>, other: seq<Budget>) {
    |path| == |other| && forall k :: 0 <= k < |path| ==>
      path[k].id == other[k].id && path[k].config == other[k].config && path[k].usage == other[k].usage
  }

  lemma {:induction false} AlikeCharges(path: seq<Budget>, other: seq<Budget>, cost: real, id: Id)
    requires FillsAlike(path, other)
    ensures ChargeFor(path, cost, id) == ChargeFor(other, cost, id)
    ensures Remainder(path, cost) == Remainder(other, cost)
  {
    if path != [] {
      AlikeCharges(path[..|path| - 1], other[..|other| - 1], cost, id);
    }
  }

  // ----- Charges add up ----------------------------------------------------

  lemma {:induction false} FilledAt(path: seq<Budget>, cost: real, k: nat)
    requires k < |path|
    ensures Filled(path, cost)[k] == path[k].(usage := path[k].usage + Charge(path[k], Remainder(path[..k], cost)))
  {
    if k < |path| - 1 {
      FilledAt(path[..|path| - 1], cost, k);
      assert path[..|path| - 1][..k] == path[..k];
    }
  }

  lemma FilledRow(path: seq<Budget>, cost: real, k: nat)
    requires k < |path| && Distinct(Ids(path))
    ensures Filled(path, cost)[k] == path[k].(usage := path[k].usage + ChargeFor(path, cost, path[k].id))
  {
    FilledAt(path, cost, k);
    ChargeForAt(path, cost, k);
  }

  lemma FilledIds(path: seq<Budget>, cost: real)
    ensures Ids(Filled(path, cost)) == Ids(path)
  {
    forall k | 0 <= k < |path|
      ensures Filled(path, cost)[k].id == path[k].id
    {
      FilledAt(path, cost, k);
    }
  }

  lemma ChargesAdd(path: seq<Budget>, c1: real, c2: real, sum: real, id: Id)
    requires Distinct(Ids(path)) && 0.0 <= c1 && 0.0 <= c2 && sum == c1 + c2
    ensures ChargeFor(path, c1, id) + ChargeFor(Filled(path, c1), c2, id) == ChargeFor(path, sum, id)
  {
    var once := Filled(path, c1);
    FilledIds(path, c1);
    if k: nat :| k < |path| && Ids(path)[k] == id {
      assert Ids(once)[k] == id;
      FilledRow(path, c1, k);
      FilledRow(once, c2, k);
      FilledRow(path, sum, k);
      FillsCompose(path, c1, c2);
      assert Filled(once, c2)[k] == Filled(path, sum)[k];
    } else {
      assert forall k :: 0 <= k < |path| ==> path[k].id != id && Ids(once)[k] != id;
      ChargeForAbsent(path, c1, id);
      ChargeForAbsent(once, c2, id);
      ChargeForAbsent(path, sum, id);
    }
  }

  // ----- The transactions --------------------------------------------------

  /** The second state is the first with the charges of `cost` along `path`. */
  ghost predicate ChargedAs(before: Db, after: Db, path: seq<Budget>, cost: real) {
    && after.rows.Keys == before.rows.Keys
    && forall i {:trigger ChargedAt(before, after, path, cost, i)} :: i in before.rows ==>
      ChargedAt(before, after, path, cost, i)
  }

  ghost predicate ChargedAt(before: Db, after: Db, path: seq<Budget>, cost: real, i: Id) {
    i in before.rows && i in after.rows && after.rows[i].usage == before.rows[i].usage + ChargeFor(path, cost, i)
  }

  ghost predicate SameUsages(db: Db, other: Db) {
    db.rows.Keys == other.rows.Keys && forall i :: i in db.rows ==> db.rows[i].usage == other.rows[i].usage
  }

  /** Rows that were charged along a path now form the filled path. */
  lemma AfterCharge(db: Db, after: Db, path: seq<Budget>, id: Id, cost: real)
    requires Keyed(db.rows) && Keyed(after.rows) && SameShape(db.rows, after.rows) && path == Path(db.rows, id)
    requires ChargedAs(db, after, path, cost)
    ensures FillsAlike(Path(after.rows, id), Filled(path, cost))
  {
    var path' := Path(after.rows, id);
    PathIds(db.rows, after.rows, id);
    PathRows(db.rows, id);
    PathRows(after.rows, id);
    forall k | 0 <= k < |path|
      ensures && path'[k].id == Filled(path, cost)[k].id
              && path'[k].config == Filled(path, cost)[k].config
              && path'[k].usage == Filled(path, cost)[k].usage
    {
      FilledRow(path, cost, k);
      RowsAlike(db.rows, after.rows, path, path', k);
      assert ChargedAt(db, after, path, cost, path[k].id);
    }
  }

  lemma RowsAlike(rows: map<Id, Budget>, other: map<Id, Budget>, path: seq<Budget>, path': seq<Budget>, k: nat)
    requires SameShape(rows, other) && Ids(path) == Ids(path') && k < |path|
    requires forall b :: b in path ==> b.id in rows && rows[b.id] == b
    requires forall b :: b in path' ==> b.id in other && other[b.id] == b
    ensures path'[k].id == path[k].id && path'[k].id in other && path'[k] == other[path[k].id]
              && path'[k].config == path[k].config
    ensures path[k].id in rows && path[k] == rows[path[k].id]
  {
    assert path[k] in path && path'[k] in path' && Ids(path)[k] == Ids(path')[k];
  }

  lemma SettledUsage(db: Db, r: RequestId, cost: real, now: nat, b: Id)
    requires Valid(db) && b in db.rows && FirstHold(db.holds, r).Some?
    ensures b in Settle(db, r, cost, now).rows
    ensures Settle(db, r, cost, now).rows[b].usage ==
              db.rows[b].usage + ChargeFor(Path(db.rows, FirstHold(db.holds, r).value.budget), cost, b)
  {
    SettleEffect(db, r, cost, now, b);
  }

  lemma SettlingOnce(db: Db, r: RequestId, cost: real, now: nat)
    requires Valid(db) && FirstHold(db.holds, r).Some?
    ensures ChargedAs(db, Settle(db, r, cost, now), Path(db.rows, FirstHold(db.holds, r).value.budget), cost)
  {
    StepKeepsValid(db, DoSettle(r, Max0(cost), now));
    forall i | i in db.rows
      ensures ChargedAt(db, Settle(db, r, cost, now), Path(db.rows, FirstHold(db.holds, r).value.budget), cost, i)
    {
      SettledUsage(db, r, cost, now, i);
    }
  }

  /** A charge on a path that stands filled completes the charge of the summed cost. */
  lemma AddsUp(db: Db, mid: Db, after: Db, id: Id, c1: real, c2: real, sum: real)
    requires Keyed(db.rows) && 0.0 <= c1 && 0.0 <= c2 && sum == c1 + c2
    requires ChargedAs(db, mid, Path(db.rows, id), c1) && ChargedAs(mid, after, Path(mid.rows, id), c2)
    requires FillsAlike(Path(mid.rows, id), Filled(Path(db.rows, id), c1))
    ensures ChargedAs(db, after, Path(db.rows, id), sum)
  {
    PathRows(db.rows, id);
    forall i | i in db.rows
      ensures ChargedAt(db, after, Path(db.rows, id), sum, i)
    {
      assert ChargedAt(db, mid, Path(db.rows, id), c1, i) && ChargedAt(mid, after, Path(mid.rows, id), c2, i);
      AlikeCharges(Path(mid.rows, id), Filled(Path(db.rows, id), c1), c2, i);
      ChargesAdd(Path(db.rows, id), c1, c2, sum, i);
    }
  }

  // ----- Runs of settlements -----------------------------------------------

  /** The event settles a request that is reserved in this state. */
  ghost predicate Settles(db: Db, e: Event) {
    e.DoSettle? && 0.0 <= e.cost && FirstHold(db.holds, e.request).Some?
  }

  ghost predicate AllSettle(db: Db, es: seq<Event>) {
    forall e :: e in es ==> Settles(db, e)
  }

  /** Settlements of different requests, all of them reserved in this state. */
  ghost predicate Batch(db: Db, es: seq<Event>) {
    AllSettle(db, es) && forall i, j :: 0 <= i < j < |es| && es[i].DoSettle? && es[j].DoSettle? ==>
      es[i].request != es[j].request
  }

  lemma {:induction false} OthersStayReserved(db: Db, es: seq<Event>, r: RequestId)
    requires Valid(db) && forall e :: e in es ==> e.DoSettle? && e.request != r
    ensures FirstHold(Run(db, es).holds, r) == FirstHold(db.holds, r)
  {
    if es != [] {
      var init, e := es[..|es| - 1], es[|es| - 1];
      assert e in es;
      OthersStayReserved(db, init, r);
      FirstHoldKept(Run(db, init).holds, OfRequest(e.request), r);
    }
  }

  /** The last settlement of a batch finds its reservation as it was at the start. */
  lemma BatchStep(db: Db, es: seq<Event>)
    requires Valid(db) && Batch(db, es) && es != []
    ensures Settles(Run(db, es[..|es| - 1]), es[|es| - 1])
    ensures FirstHold(Run(db, es[..|es| - 1]).holds, es[|es| - 1].request) == FirstHold(db.holds, es[|es| - 1].request)
  {
    var init, e := es[..|es| - 1], es[|es| - 1];
    assert e in es;
    forall x | x in init
      ensures x.DoSettle? && x.request != e.request
    {
      assert x in es;
      var i :| 0 <= i < |init| && init[i] == x;
      assert es[i] == x;
    }
    OthersStayReserved(db, init, e.request);
  }

  function TotalCost(es: seq<Event>): real {
    if es == [] then 0.0
    else
      var e := es[|es| - 1];
      TotalCost(es[..|es| - 1]) + if e.DoSettle? then e.cost else 0.0
  }

  /** All these requests are reserved on `id` first. */
  ghost predicate StartAt(db: Db, es: seq<Event>, id: Id) {
    forall e :: e in es ==>
      && e.DoSettle? && FirstHold(db.holds, e.request).Some?
      && FirstHold(db.holds, e.request).value.budget == id
  }

  /** Any number of settlements from one budget charge every budget as one of the total cost. */
  lemma {:induction false} BatchCharges(db: Db, es: seq<Event>, id: Id)
    requires Valid(db) && Batch(db, es) && StartAt(db, es, id)
    ensures 0.0 <= TotalCost(es)
    ensures ChargedAs(db, Run(db, es), Path(db.rows, id), TotalCost(es))
  {
    if es == [] {
      ChargesNothing(db, id);
    } else {
      var init, e := es[..|es| - 1], es[|es| - 1];
      BatchInit(db, es, id);
      BatchCharges(db, init, id);
      RunKeepsValid(db, init);
      BatchStep(db, es);
      BatchChargesOn(db, Run(db, init), e, id, TotalCost(init), TotalCost(es));
    }
  }

  lemma ChargesNothing(db: Db, id: Id)
    requires Valid(db)
    ensures ChargedAs(db, db, Path(db.rows, id), 0.0)
  {
    PathRows(db.rows, id);
    forall i | i in db.rows
      ensures ChargedAt(db, db, Path(db.rows, id), 0.0, i)
    {
      ChargeForBounds(Path(db.rows, id), 0.0, i);
    }
  }

  lemma BatchInit(db: Db, es: seq<Event>, id: Id)
    requires Batch(db, es) && StartAt(db, es, id) && es != []
    ensures var init, e := es[..|es| - 1], es[|es| - 1];
            && Batch(db, init) && StartAt(db, init, id) && Settles(db, e)
            && FirstHold(db.holds, e.request).value.budget == id
            && TotalCost(es) == TotalCost(init) + e.cost
  {
    assert es[|es| - 1] in es;
    assert forall x :: x in es[..|es| - 1] ==> x in es;
  }

  lemma BatchChargesOn(db: Db, at: Db, e: Event, id: Id, before: real, total: real)
    requires Valid(db) && Valid(at) && SameShape(db.rows, at.rows) && Settles(at, e) && 0.0 <= before
               && total == before + e.cost
    requires FirstHold(at.holds, e.request).value.budget == id
    requires ChargedAs(db, at, Path(db.rows, id), before)
    ensures ChargedAs(db, Step(at, e), Path(db.rows, id), total)
  {
    AfterCharge(db, at, Path(db.rows, id), id, before);
    SettlingOnce(at, e.request, e.cost, e.now);
    AddsUp(db, at, Step(at, e), id, before, e.cost, total);
  }

  /**
    Path independence: settlements that start from one budget leave the same usage on every
    budget whenever their total cost is the same, however it is split over requests and in
    whatever order they run. In particular c1 and then c2 is c1 + c2 at once.
   */
  lemma OnlyTheTotalCounts(db: Db, xs: seq<Event>, ys: seq<Event>, id: Id)
    requires Valid(db) && Batch(db, xs) && Batch(db, ys) && StartAt(db, xs, id) && StartAt(db, ys, id)
    requires TotalCost(xs) == TotalCost(ys)
    ensures SameUsages(Run(db, xs), Run(db, ys))
  {
    BatchCharges(db, xs, id);
    BatchCharges(db, ys, id);
    var path, cost := Path(db.rows, id), TotalCost(xs);
    forall i | i in db.rows
      ensures i in Run(db, xs).rows && i in Run(db, ys).rows && Run(db, xs).rows[i].usage == Run(db, ys).rows[i].usage
    {
      assert ChargedAt(db, Run(db, xs), path, cost, i) && ChargedAt(db, Run(db, ys), path, cost, i);
    }
  }
}
