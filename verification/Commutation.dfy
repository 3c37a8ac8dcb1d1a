/**
  The order of settlements does not matter: any two of them commute, whichever budgets
  they start from, as long as processing order follows the chains.
 */
module Commutation {
  import opened Model
  import opened Hierarchy
  import opened BucketFill
  import opened Database

  /** Children sit at a lower or equal level than their parents. */
  ghost predicate LevelsAscend(rows: map<Id, Budget>) {
    forall i :: i in rows && rows[i].config.parent.Some? && rows[i].config.parent.value in rows ==>
      Level(rows[i].entity) <= Level(rows[rows[i].config.parent.value].entity)
  }

  /** The processing order of a settlement that starts at `id` is the order of its chain. */
  ghost predicate InLevelOrder(rows: map<Id, Budget>, id: Id) {
    var bs := RowsOf(rows, Chain(rows, id));
    forall i, j :: 0 <= i < j < |bs| ==> Level(bs[i].entity) <= Level(bs[j].entity)
  }

  lemma LevelPath(rows: map<Id, Budget>, id: Id)
    requires InLevelOrder(rows, id)
    ensures Path(rows, id) == RowsOf(rows, Chain(rows, id))
  {
    SortedKeepsOrdered(RowsOf(rows, Chain(rows, id)));
  }

  type Usages = map<Id, real>

  function UsagesOf(rows: map<Id, Budget>): (u: Usages)
    ensures u.Keys == rows.Keys
  {
    map i | i in rows :: rows[i].usage
  }

  /** A row as it stands once usages have moved to `u`. */
  function RowAt(rows: map<Id, Budget>, u: Usages, id: Id): Budget
    requires id in rows && id in u
  {
    rows[id].(usage := u[id])
  }

  /** Bucket fill as a walk up the tree. */
  ghost function FillUp(rows: map<Id, Budget>, rank: map<Id, nat>, u: Usages, id: Id, cost: real): (filled: Usages)
    requires Ranked(rows, rank) && u.Keys == rows.Keys && id in rows
    ensures filled.Keys == rows.Keys
    decreases rank[id]
  {
    assert RankedAt(rows, rank, id);
    var b := RowAt(rows, u, id);
    var next := u[id := u[id] + Charge(b, cost)];
    match b.config.parent
    case None => next
    case Some(p) => FillUp(rows, rank, next, p, Rest(b, cost))
  }

  // ----- The walk is what a settlement does --------------------------------

  lemma {:induction false} ChainLevels(rows: map<Id, Budget>, rank: map<Id, nat>, id: Id)
    requires Ranked(rows, rank) && LevelsAscend(rows) && id in rows
    ensures InLevelOrder(rows, id)
    ensures Chain(rows, id) != [] && Chain(rows, id)[0] == id
    decreases rank[id]
  {
    assert RankedAt(rows, rank, id);
    ChainUnfold(rows, rank, id);
    if rows[id].config.parent.Some? {
      var p := rows[id].config.parent.value;
      ChainLevels(rows, rank, p);
      var bs, up := RowsOf(rows, Chain(rows, id)), RowsOf(rows, Chain(rows, p));
      assert bs == [rows[id]] + up;
      assert up[0] == rows[p];
      assert forall j :: 0 <= j < |up| ==> Level(up[0].entity) <= Level(up[j].entity);
    }
  }

  lemma {:induction false} ChargeForCons(b: Budget, tail: seq<Budget>, cost: real, i: Id)
    ensures ChargeFor([b] + tail, cost, i) ==
              (if b.id == i then Charge(b, cost) else 0.0) + ChargeFor(tail, Rest(b, cost), i)
    ensures Remainder([b] + tail, cost) == Remainder(tail, Rest(b, cost))
  {
    var path := [b] + tail;
    if tail == [] {
      assert path == [b];
      assert path[..0] == [];
    } else {
      assert path[..|path| - 1] == [b] + tail[..|tail| - 1];
      ChargeForCons(b, tail[..|tail| - 1], cost, i);
    }
  }

  function RowsAt(rows: map<Id, Budget>, u: Usages, ids: seq<Id>): (bs: seq<Budget>)
    requires rows.Keys == u.Keys && forall i :: 0 <= i < |ids| ==> ids[i] in rows
    ensures |bs| == |ids|
    ensures forall i :: 0 <= i < |ids| ==> bs[i] == RowAt(rows, u, ids[i])
  {
    seq(|ids|, i requires 0 <= i < |ids| => RowAt(rows, u, ids[i]))
  }

  lemma {:induction false} FillUpCharges(rows: map<Id, Budget>, rank: map<Id, nat>, u: Usages, id: Id, cost: real,
                                         i: Id)
    requires Ranked(rows, rank) && Keyed(rows) && u.Keys == rows.Keys && id in rows && i in rows
    ensures FillUp(rows, rank, u, id, cost)[i] == u[i] + ChargeFor(RowsAt(rows, u, Chain(rows, id)), cost, i)
    decreases rank[id]
  {
    assert RankedAt(rows, rank, id);
    var b := RowAt(rows, u, id);
    var next := u[id := u[id] + Charge(b, cost)];
    ChainUnfold(rows, rank, id);
    match b.config.parent {
      case None =>
        assert RowsAt(rows, u, Chain(rows, id)) == [b] + [];
        ChargeForCons(b, [], cost, i);
      case Some(p) =>
        FillUpCharges(rows, rank, next, p, Rest(b, cost), i);
        ChargesBelow(rows, rank, u, id, cost, i);
    }
  }

  lemma ChargesBelow(rows: map<Id, Budget>, rank: map<Id, nat>, u: Usages, id: Id, cost: real, i: Id)
    requires Ranked(rows, rank) && Keyed(rows) && u.Keys == rows.Keys && id in rows && i in rows
    requires rows[id].config.parent.Some?
    ensures var b, up := RowAt(rows, u, id), Chain(rows, rows[id].config.parent.value);
            var next := u[id := u[id] + Charge(b, cost)];
            u[i] + ChargeFor(RowsAt(rows, u, Chain(rows, id)), cost, i) ==
              next[i] + ChargeFor(RowsAt(rows, next, up), Rest(b, cost), i)
  {
    var b := RowAt(rows, u, id);
    PathAfterStep(rows, rank, u, id, u[id] + Charge(b, cost));
    ChargeForCons(b, RowsAt(rows, u, Chain(rows, rows[id].config.parent.value)), cost, i);
  }

  /** Charging a budget leaves the rows above it as they were. */
  lemma PathAfterStep(rows: map<Id, Budget>, rank: map<Id, nat>, u: Usages, id: Id, v: real)
    requires Ranked(rows, rank) && u.Keys == rows.Keys && id in rows && rows[id].config.parent.Some?
    ensures var up := Chain(rows, rows[id].config.parent.value);
            && RowsAt(rows, u[id := v], up) == RowsAt(rows, u, up)
            && RowsAt(rows, u, Chain(rows, id)) == [RowAt(rows, u, id)] + RowsAt(rows, u, up)
  {
    assert RankedAt(rows, rank, id);
    var p := rows[id].config.parent.value;
    ChainUnfold(rows, rank, id);
    ChainBelow(rows, rank, p);
    RowsAtFrame(rows, u, id, v, Chain(rows, p));
    RowsAtCons(rows, u, id, Chain(rows, p));
  }

  lemma RowsAtFrame(rows: map<Id, Budget>, u: Usages, id: Id, v: real, ids: seq<Id>)
    requires u.Keys == rows.Keys && id in rows && id !in ids && forall i :: 0 <= i < |ids| ==> ids[i] in rows
    ensures RowsAt(rows, u[id := v], ids) == RowsAt(rows, u, ids)
  {
    assert forall i :: 0 <= i < |ids| ==> ids[i] in ids;
  }

  lemma RowsAtCons(rows: map<Id, Budget>, u: Usages, id: Id, ids: seq<Id>)
    requires u.Keys == rows.Keys && id in rows && forall i :: 0 <= i < |ids| ==> ids[i] in rows
    ensures RowsAt(rows, u, [id] + ids) == [RowAt(rows, u, id)] + RowsAt(rows, u, ids)
  {
  }

  lemma {:induction false} ChainBelow(rows: map<Id, Budget>, rank: map<Id, nat>, id: Id)
    requires Ranked(rows, rank) && id in rows
    ensures forall i :: i in Chain(rows, id) ==> i in rows && rank[i] <= rank[id]
    decreases rank[id]
  {
    assert RankedAt(rows, rank, id);
    ChainUnfold(rows, rank, id);
    if rows[id].config.parent.Some? {
      ChainBelow(rows, rank, rows[id].config.parent.value);
    }
  }

  /** Settling a request fills the tree upwards from its first reserved budget. */
  lemma SettleFillsUp(db: Db, rank: map<Id, nat>, r: RequestId, cost: real, now: nat, i: Id)
    requires Valid(db) && Ranked(db.rows, rank) && FirstHold(db.holds, r).Some? && i in db.rows
    requires InLevelOrder(db.rows, FirstHold(db.holds, r).value.budget)
    ensures FirstHold(db.holds, r).value.budget in db.rows
    ensures i in Settle(db, r, cost, now).rows
    ensures Settle(db, r, cost, now).rows[i].usage ==
              FillUp(db.rows, rank, UsagesOf(db.rows), FirstHold(db.holds, r).value.budget, cost)[i]
  {
    var id := FirstHold(db.holds, r).value.budget;
    SettleEffect(db, r, cost, now, i);
    PathFillsUp(db.rows, rank, id, cost, i);
  }

  lemma PathFillsUp(rows: map<Id, Budget>, rank: map<Id, nat>, id: Id, cost: real, i: Id)
    requires Ranked(rows, rank) && Keyed(rows) && id in rows && i in rows && InLevelOrder(rows, id)
    ensures FillUp(rows, rank, UsagesOf(rows), id, cost)[i] == rows[i].usage + ChargeFor(Path(rows, id), cost, i)
  {
    LevelPath(rows, id);
    FillUpCharges(rows, rank, UsagesOf(rows), id, cost, i);
    assert RowsAt(rows, UsagesOf(rows), Chain(rows, id)) == RowsOf(rows, Chain(rows, id));
  }

  // ----- Settlements commute -----------------------------------------------

  /** Rows at or above the rank of the starting budget, other than it, are not touched. */
  lemma {:induction false} FillUpFrame(rows: map<Id, Budget>, rank: map<Id, nat>, u: Usages, id: Id, cost: real,
                                       x: Id, v: real)
    requires Ranked(rows, rank) && u.Keys == rows.Keys
    requires id in rows && x in rows && x != id && rank[id] <= rank[x]
    ensures FillUp(rows, rank, u, id, cost)[x] == u[x]
    ensures FillUp(rows, rank, u[x := v], id, cost) == FillUp(rows, rank, u, id, cost)[x := v]
    decreases rank[id]
  {
    assert RankedAt(rows, rank, id);
    var b := RowAt(rows, u, id);
    var next := u[id := u[id] + Charge(b, cost)];
    assert u[x := v][id := u[id] + Charge(b, cost)] == next[x := v];
    if b.config.parent.Some? {
      FillUpFrame(rows, rank, next, b.config.parent.value, Rest(b, cost), x, v);
    }
  }

  lemma FillUpUnfold(rows: map<Id, Budget>, rank: map<Id, nat>, u: Usages, id: Id, cost: real, v: real, rest: real)
    requires Ranked(rows, rank) && u.Keys == rows.Keys && id in rows
    requires v == u[id] + Charge(RowAt(rows, u, id), cost) && rest == Rest(RowAt(rows, u, id), cost)
    ensures FillUp(rows, rank, u, id, cost) ==
              match rows[id].config.parent
              case None => u[id := v]
              case Some(p) => assert RankedAt(rows, rank, id); FillUp(rows, rank, u[id := v], p, rest)
  {
  }

  /** What the first budget keeps and passes on when it is charged twice. */
  lemma ChargedTwice(rows: map<Id, Budget>, u: Usages, filled: Usages, id: Id, c1: real, c2: real)
    returns (once: real, twice: real, r1: real, r2: real)
    requires u.Keys == rows.Keys && filled.Keys == rows.Keys && id in rows && 0.0 <= c1 && 0.0 <= c2
    requires filled[id] == u[id] + Charge(RowAt(rows, u, id), c1)
    ensures once == filled[id] && r1 == Rest(RowAt(rows, u, id), c1) && 0.0 <= r1 && 0.0 <= r2
    ensures twice == once + Charge(RowAt(rows, filled, id), c2) && r2 == Rest(RowAt(rows, filled, id), c2)
    ensures twice == u[id] + Charge(RowAt(rows, u, id), c1 + c2) && r1 + r2 == Rest(RowAt(rows, u, id), c1 + c2)
  {
    var b := RowAt(rows, u, id);
    ChargesCompose(b, c1, c2);
    assert RowAt(rows, filled, id) == b.(usage := filled[id]);
    once, r1 := filled[id], Rest(b, c1);
    twice, r2 := once + Charge(RowAt(rows, filled, id), c2), Rest(RowAt(rows, filled, id), c2);
  }

  /** Two settlements from the same budget amount to one with the summed cost. */
  lemma {:induction false} FillUpTwice(rows: map<Id, Budget>, rank: map<Id, nat>, u: Usages, id: Id, c1: real, c2: real)
    requires Ranked(rows, rank) && u.Keys == rows.Keys && id in rows && 0.0 <= c1 && 0.0 <= c2
    ensures FillUp(rows, rank, FillUp(rows, rank, u, id, c1), id, c2) == FillUp(rows, rank, u, id, c1 + c2)
    decreases rank[id], 1
  {
    var filled := FillUp(rows, rank, u, id, c1);
    FillUpKeeps(rows, rank, u, id, c1);
    var once, twice, r1, r2 := ChargedTwice(rows, u, filled, id, c1, c2);
    FillUpUnfold(rows, rank, u, id, c1, once, r1);
    FillUpUnfold(rows, rank, filled, id, c2, twice, r2);
    FillUpUnfold(rows, rank, u, id, c1 + c2, twice, r1 + r2);
    if rows[id].config.parent.Some? {
      PassedOnTwice(rows, rank, u, id, once, twice, r1, r2);
    }
  }

  /** The walk visits its first budget once. */
  lemma FillUpKeeps(rows: map<Id, Budget>, rank: map<Id, nat>, u: Usages, id: Id, cost: real)
    requires Ranked(rows, rank) && u.Keys == rows.Keys && id in rows
    ensures FillUp(rows, rank, u, id, cost)[id] == u[id] + Charge(RowAt(rows, u, id), cost)
  {
    assert RankedAt(rows, rank, id);
    if rows[id].config.parent.Some? {
      var v := u[id] + Charge(RowAt(rows, u, id), cost);
      FillUpFrame(rows, rank, u[id := v], rows[id].config.parent.value, Rest(RowAt(rows, u, id), cost), id, v);
    }
  }

  /** Above a budget whose usage moves to v1 and then v2, two overflows add up as well. */
  lemma {:induction false} PassedOnTwice(rows: map<Id, Budget>, rank: map<Id, nat>, u: Usages, id: Id, v1: real,
                                         v2: real, r1: real, r2: real)
    requires Ranked(rows, rank) && u.Keys == rows.Keys && id in rows && 0.0 <= r1 && 0.0 <= r2
    requires rows[id].config.parent.Some?
    ensures assert RankedAt(rows, rank, id);
            var p := rows[id].config.parent.value;
            var mid := FillUp(rows, rank, u[id := v1], p, r1);
            mid[id] == v1 && FillUp(rows, rank, mid[id := v2], p, r2) == FillUp(rows, rank, u[id := v2], p, r1 + r2)
    decreases rank[id], 0
  {
    assert RankedAt(rows, rank, id);
    var p := rows[id].config.parent.value;
    FillUpFrame(rows, rank, u[id := v1], p, r1, id, v2);
    assert u[id := v1][id := v2] == u[id := v2];
    FillUpTwice(rows, rank, u[id := v2], p, r1, r2);
  }

  /** Any two settlements commute. */
  lemma {:induction false} FillsUpCommute(rows: map<Id, Budget>, rank: map<Id, nat>, u: Usages, a: Id, c1: real,
                                          b: Id, c2: real)
    requires Ranked(rows, rank) && u.Keys == rows.Keys && a in rows && b in rows && 0.0 <= c1 && 0.0 <= c2
    ensures FillUp(rows, rank, FillUp(rows, rank, u, a, c1), b, c2) ==
              FillUp(rows, rank, FillUp(rows, rank, u, b, c2), a, c1)
    decreases rank[a] + rank[b], rank[b]
  {
    if a == b {
      FillUpTwice(rows, rank, u, a, c1, c2);
      FillUpTwice(rows, rank, u, a, c2, c1);
      assert c1 + c2 == c2 + c1;
    } else if rank[a] >= rank[b] {
      DeeperFirst(rows, rank, u, a, c1, b, c2);
    } else {
      FillsUpCommute(rows, rank, u, b, c2, a, c1);
    }
  }

  lemma {:induction false} DeeperFirst(rows: map<Id, Budget>, rank: map<Id, nat>, u: Usages, a: Id, c1: real, b: Id,
                                       c2: real)
    requires Ranked(rows, rank) && u.Keys == rows.Keys && a in rows && b in rows && 0.0 <= c1 && 0.0 <= c2
    requires a != b && rank[a] >= rank[b]
    ensures FillUp(rows, rank, FillUp(rows, rank, u, a, c1), b, c2) ==
              FillUp(rows, rank, FillUp(rows, rank, u, b, c2), a, c1)
    decreases rank[a] + rank[b], rank[b], 0
  {
    assert RankedAt(rows, rank, a);
    var row := RowAt(rows, u, a);
    var v := u[a] + Charge(row, c1);
    FillUpFrame(rows, rank, u, b, c2, a, v);
    if row.config.parent.Some? {
      FillsUpCommute(rows, rank, u[a := v], row.config.parent.value, Rest(row, c1), b, c2);
    }
  }

  // ----- Any order of any number of settlements ----------------------------

  datatype Bill = Bill(budget: Id, cost: real)

  ghost predicate Payable(rows: map<Id, Budget>, bills: seq<Bill>) {
    forall b :: b in bills ==> b.budget in rows && 0.0 <= b.cost
  }

  ghost function FillAll(rows: map<Id, Budget>, rank: map<Id, nat>, u: Usages, bills: seq<Bill>): Usages
    requires Ranked(rows, rank) && u.Keys == rows.Keys && Payable(rows, bills)
    decreases |bills|
  {
    if bills == [] then u
    else FillAll(rows, rank, FillUp(rows, rank, u, bills[0].budget, bills[0].cost), bills[1..])
  }

  lemma FillAllCons(rows: map<Id, Budget>, rank: map<Id, nat>, u: Usages, x: Bill, rest: seq<Bill>)
    requires Ranked(rows, rank) && u.Keys == rows.Keys && Payable(rows, rest)
    requires x.budget in rows && 0.0 <= x.cost
    ensures Payable(rows, [x] + rest)
    ensures FillAll(rows, rank, u, [x] + rest) ==
              FillAll(rows, rank, FillUp(rows, rank, u, x.budget, x.cost), rest)
  {
    assert ([x] + rest)[1..] == rest;
  }

  /** A bill may be paid first instead of after `before`. */
  lemma {:induction false} PayEarlier(rows: map<Id, Budget>, rank: map<Id, nat>, u: Usages, before: seq<Bill>,
                                      y: Bill, after: seq<Bill>)
    requires Ranked(rows, rank) && u.Keys == rows.Keys && y.budget in rows && 0.0 <= y.cost
    requires Payable(rows, before + [y] + after) && Payable(rows, before + after)
    ensures FillAll(rows, rank, u, before + [y] + after) ==
              FillAll(rows, rank, FillUp(rows, rank, u, y.budget, y.cost), before + after)
    decreases |before|
  {
    if before == [] {
      assert before + [y] + after == [y] + after && before + after == after;
      FillAllCons(rows, rank, u, y, after);
    } else {
      var x, tail := before[0], before[1..];
      assert before + [y] + after == [x] + (tail + [y] + after);
      assert before + after == [x] + (tail + after);
      assert x in before + after;
      FillAllCons(rows, rank, u, x, tail + [y] + after);
      FillAllCons(rows, rank, FillUp(rows, rank, u, y.budget, y.cost), x, tail + after);
      PayEarlier(rows, rank, FillUp(rows, rank, u, x.budget, x.cost), tail, y, after);
      FillsUpCommute(rows, rank, u, x.budget, x.cost, y.budget, y.cost);
    }
  }

  /** The place of x among ys, and what is left without it. */
  lemma SplitAt<T(!new)>(x: T, tail: seq<T>, ys: seq<T>) returns (before: seq<T>, after: seq<T>)
    requires multiset([x] + tail) == multiset(ys)
    ensures ys == before + [x] + after
    ensures multiset(before + after) == multiset(tail)
  {
    assert x in multiset(ys);
    var k :| 0 <= k < |ys| && ys[k] == x;
    before, after := ys[..k], ys[k + 1..];
    assert ys == before + [x] + after;
    RemoveOne(x, tail, before, after);
  }

  lemma RemoveOne<T(!new)>(x: T, tail: seq<T>, before: seq<T>, after: seq<T>)
    requires multiset([x] + tail) == multiset(before + [x] + after)
    ensures multiset(before + after) == multiset(tail)
  {
    forall b: T
      ensures multiset(before + after)[b] == multiset(tail)[b]
    {
      assert multiset([x] + tail)[b] == multiset{x}[b] + multiset(tail)[b];
      assert multiset(before + [x] + after)[b] == multiset(before)[b] + multiset{x}[b] + multiset(after)[b];
    }
  }

  lemma SameBillsPayable(rows: map<Id, Budget>, xs: seq<Bill>, ys: seq<Bill>)
    requires Payable(rows, xs) && multiset(xs) == multiset(ys)
    ensures Payable(rows, ys) && |xs| == |ys|
  {
    assert |multiset(xs)| == |xs| && |multiset(ys)| == |ys|;
    forall b | b in ys
      ensures b in xs
    {
      assert b in multiset(ys);
    }
  }

  /** The final usages depend only on which bills are paid, not on their order. */
  lemma {:induction false} OrderIrrelevant(rows: map<Id, Budget>, rank: map<Id, nat>, u: Usages, xs: seq<Bill>,
                                           ys: seq<Bill>)
    requires Ranked(rows, rank) && u.Keys == rows.Keys && Payable(rows, xs) && multiset(xs) == multiset(ys)
    ensures Payable(rows, ys)
    ensures FillAll(rows, rank, u, xs) == FillAll(rows, rank, u, ys)
    decreases |xs|
  {
    SameBillsPayable(rows, xs, ys);
    if xs != [] {
      var x, tail := xs[0], xs[1..];
      assert xs == [x] + tail;
      var before, after := SplitAt(x, tail, ys);
      SameBillsPayable(rows, tail, before + after);
      PayEarlier(rows, rank, u, before, x, after);
      OrderIrrelevant(rows, rank, FillUp(rows, rank, u, x.budget, x.cost), tail, before + after);
    }
  }
}
