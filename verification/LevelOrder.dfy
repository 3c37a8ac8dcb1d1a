/**
  Exactly when the order of settlements does not matter: when no budget stands at a higher
  level than its parent, so that processing order follows the chains.
 */
module LevelOrder {
  import opened Model
  import opened Hierarchy
  import opened BucketFill
  import opened Database
  import opened Requests
  import opened PathIndependence
  import opened Commutation
  import opened SettlementOrder

  /** Two orders of these settlements of a table of this shape end in the same usages. */
  ghost predicate OrderFreeAt(rows: map<Id, Budget>, db: Db, xs: seq<Event>, ys: seq<Event>) {
    Valid(db) && SameShape(rows, db.rows) && Batch(db, xs) && Batch(db, ys) && multiset(xs) == multiset(ys) ==>
      UsagesOf(Run(db, xs).rows) == UsagesOf(Run(db, ys).rows)
  }

  ghost predicate OrderFree(rows: map<Id, Budget>) {
    forall db, xs, ys :: OrderFreeAt(rows, db, xs, ys)
  }

  /** No budget stands at a higher level than the root above it. */
  ghost predicate RootsOnTop(rows: map<Id, Budget>) {
    forall i, r {:trigger OnTop(rows, i, r)} :: OnTop(rows, i, r)
  }

  ghost predicate OnTop(rows: map<Id, Budget>, i: Id, r: Id) {
    i in rows && r in Chain(rows, i) && rows[r].IsRoot() ==> Level(rows[i].entity) <= Level(rows[r].entity)
  }

  /** Only budgets without children are isolated. */
  ghost predicate ParentsOpen(rows: map<Id, Budget>) {
    forall i :: i in rows && rows[i].config.parent.Some? && rows[i].config.parent.value in rows ==>
      !rows[rows[i].config.parent.value].config.isolated
  }

  /** x stands at a higher level than its parent y. */
  ghost predicate Inverted(rows: map<Id, Budget>, x: Id, y: Id) {
    && x in rows && y in rows && rows[x].config.parent == Some(y)
    && Level(rows[y].entity) < Level(rows[x].entity)
  }

  // ----- Where budgets stand in processing order ---------------------------

  /** The last row of its list comes after every row that is not above its level. */
  lemma LastOfItsLevel(bs: seq<Budget>, k: nat) returns (m: nat)
    requires bs != [] && k < |Sorted(bs)| && Level(Sorted(bs)[k].entity) <= Level(bs[|bs| - 1].entity)
    ensures k <= m < |Sorted(bs)| && Sorted(bs)[m] == bs[|bs| - 1]
  {
    var last := bs[|bs| - 1];
    var u, t, o := OfType(bs, User), OfType(bs, Team), OfType(bs, Org);
    OfTypeUniform(bs, Team);
    OfTypeUniform(bs, Org);
    match last.entity {
      case User =>
        m := |u| - 1;
        assert forall q :: m < q < |Sorted(bs)| ==> Sorted(bs)[q] in t + o;
      case Team =>
        m := |u| + |t| - 1;
        assert forall q :: m < q < |Sorted(bs)| ==> Sorted(bs)[q] in o;
      case Org =>
        m := |u| + |t| + |o| - 1;
    }
  }

  /** On the path of a budget no root comes before a budget that is not above its level. */
  lemma NoRootBefore(rows: map<Id, Budget>, rank: map<Id, nat>, x: Id, j: nat, k: nat)
    requires Keyed(rows) && Ranked(rows, rank) && x in rows && RootsOnTop(rows)
    requires j < k < |Path(rows, x)| && Level(Path(rows, x)[k].entity) <= Level(rows[x].entity)
    ensures Path(rows, x)[j].config.parent.Some?
  {
    var path := Path(rows, x);
    PathRows(rows, x);
    var bs := RowsOf(rows, Chain(rows, x));
    ChainReachesRoot(rows, rank, x);
    assert OnTop(rows, x, bs[|bs| - 1].id);
    var m := LastOfItsLevel(bs, k);
    assert Ids(path)[j] != Ids(path)[m];
    assert path[j] in path && Ids(path)[j] in Chain(rows, x);
    if path[j].config.parent.None? {
      RootIsLast(rows, x, rows.Keys, path[j].id);
    }
  }

  lemma {:induction false} RootIsLast(rows: map<Id, Budget>, x: Id, open: set<Id>, r: Id)
    requires r in ChainIn(rows, x, open) && rows[r].IsRoot()
    ensures var chain := ChainIn(rows, x, open); chain[|chain| - 1] == r
    decreases open
  {
    if rows[x].config.parent.Some? {
      RootIsLast(rows, rows[x].config.parent.value, open - {x}, r);
    }
  }

  lemma At(rows: map<Id, Budget>, x: Id, i: Id) returns (k: nat)
    requires Keyed(rows) && i in Chain(rows, x)
    ensures k < |Path(rows, x)| && i in rows && Path(rows, x)[k] == rows[i]
  {
    PathRows(rows, x);
    k :| 0 <= k < |Path(rows, x)| && Ids(Path(rows, x))[k] == i;
    assert Path(rows, x)[k] in Path(rows, x);
  }

  // ----- What reaches a budget ---------------------------------------------

  /** A budget is charged as if alone when everything before it is full. */
  lemma ChargedPastFull(path: seq<Budget>, cost: real, k: nat)
    requires Distinct(Ids(path)) && k < |path| && 0.0 <= cost
    requires forall j :: 0 <= j < k ==> path[j].config.parent.Some? && Full(path[j])
    ensures ChargeFor(path, cost, path[k].id) == Charge(path[k], cost)
    ensures Remainder(path[..k + 1], cost) == Rest(path[k], cost)
  {
    FullPassesOn(path[..k], cost);
    ChargeForAt(path, cost, k);
    assert path[..k + 1][..k] == path[..k];
  }

  lemma {:induction false} NothingLeftAfter(path: seq<Budget>, cost: real, j: nat, k: nat)
    requires j <= k <= |path| && Remainder(path[..j], cost) == 0.0
    ensures Remainder(path[..k], cost) == 0.0
    decreases k
  {
    if j < k {
      NothingLeftAfter(path, cost, j, k - 1);
      assert path[..k][..k - 1] == path[..k - 1];
      assert Remainder(path[..k], cost) == Rest(path[k - 1], 0.0);
    }
  }

  // ----- The state that shows the order ------------------------------------

  /** Every budget is full except x and its parent y; one request is reserved on each. */
  function Drained(rows: map<Id, Budget>, x: Id, y: Id, cost: real): Db {
    Db(map i | i in rows :: rows[i].(usage := if i == x || i == y then 0.0 else rows[i].config.amount),
       [Hold(x, 1, cost, 0), Hold(y, 2, cost, 0)],
       map i | i in rows :: [])
  }

  ghost predicate Upended(rows: map<Id, Budget>, rank: map<Id, nat>, x: Id, y: Id) {
    && Keyed(rows) && Ranked(rows, rank) && ParentsOpen(rows) && RootsOnTop(rows) && Inverted(rows, x, y)
    && forall i :: i in rows ==> 0.0 < rows[i].config.amount
  }

  /** x lies below y, on no chain of y's; y is no root and is not isolated. */
  lemma UpendedFacts(rows: map<Id, Budget>, rank: map<Id, nat>, x: Id, y: Id)
    requires Upended(rows, rank, x, y)
    ensures x != y && x !in Chain(rows, y) && y in Chain(rows, y) && y in Chain(rows, x)
    ensures x in Chain(rows, x) && rows[y].config.parent.Some? && !rows[y].config.isolated
    ensures forall i :: i in Chain(rows, x) && i != x ==> i in Chain(rows, y)
  {
    assert RankedAt(rows, rank, x);
    ChainUnfold(rows, rank, x);
    ChainUnfold(rows, rank, y);
    ChainBelow(rows, rank, y);
    assert OnTop(rows, x, y);
  }

  lemma UpendedShape(rows: map<Id, Budget>, other: map<Id, Budget>, rank: map<Id, nat>, x: Id, y: Id)
    requires Upended(rows, rank, x, y) && SameShape(rows, other)
    ensures Upended(other, rank, x, y)
  {
    RankedShape(rows, other, rank);
    forall i, r
      ensures OnTop(other, i, r)
    {
      assert OnTop(rows, i, r);
      ChainShape(rows, other, i, rows.Keys);
    }
  }

  lemma DrainedFacts(rows: map<Id, Budget>, x: Id, y: Id, cost: real)
    requires Keyed(rows) && x in rows && y in rows && x != y && 0.0 <= cost
    ensures var db := Drained(rows, x, y, cost);
            && Valid(db) && SameShape(rows, db.rows)
            && FirstHold(db.holds, 1) == Some(Hold(x, 1, cost, 0))
              && FirstHold(db.holds, 2) == Some(Hold(y, 2, cost, 0))
  {
    var g, h := Hold(x, 1, cost, 0), Hold(y, 2, cost, 0);
    assert [g, h][..1] == [g] && [g][..0] == [];
  }

  /** Every budget on the chain of y, other than y, is full. */
  ghost predicate RestFull(rows: map<Id, Budget>, y: Id) {
    forall i :: i in Chain(rows, y) && i != y ==> Full(rows[i])
  }

  /** What precedes y on the path of x or of y is full and no root. */
  lemma BeforeParent(rows: map<Id, Budget>, rank: map<Id, nat>, x: Id, y: Id, c: Id, j: nat, k: nat)
    requires Upended(rows, rank, x, y) && RestFull(rows, y) && (c == x || c == y)
    requires j < k < |Path(rows, c)| && Path(rows, c)[k] == rows[y]
    ensures Path(rows, c)[j].config.parent.Some? && Full(Path(rows, c)[j])
  {
    var path := Path(rows, c);
    UpendedFacts(rows, rank, x, y);
    PathRows(rows, c);
    NoRootBefore(rows, rank, c, j, k);
    assert path[j] in path && Ids(path)[j] in Chain(rows, c) && Ids(path)[j] != Ids(path)[k];
    SortedLevels(RowsOf(rows, Chain(rows, c)), j, k);
  }

  /** What precedes x on its path is full and no root, once y is full. */
  lemma BeforeChild(rows: map<Id, Budget>, rank: map<Id, nat>, x: Id, y: Id, j: nat, k: nat)
    requires Upended(rows, rank, x, y) && RestFull(rows, y) && Full(rows[y])
    requires j < k < |Path(rows, x)| && Path(rows, x)[k] == rows[x]
    ensures Path(rows, x)[j].config.parent.Some? && Full(Path(rows, x)[j])
  {
    var path := Path(rows, x);
    UpendedFacts(rows, rank, x, y);
    PathRows(rows, x);
    NoRootBefore(rows, rank, x, j, k);
    assert path[j] in path && Ids(path)[j] in Chain(rows, x) && Ids(path)[j] != Ids(path)[k];
  }

  lemma ParentTakesAll(rows: map<Id, Budget>, rank: map<Id, nat>, x: Id, y: Id, c: Id) returns (k: nat)
    requires Upended(rows, rank, x, y) && RestFull(rows, y) && (c == x || c == y) && rows[y].usage == 0.0
    ensures k < |Path(rows, c)| && Path(rows, c)[k] == rows[y]
    ensures ChargeFor(Path(rows, c), rows[y].config.amount, y) == rows[y].config.amount
    ensures Remainder(Path(rows, c)[..k + 1], rows[y].config.amount) == 0.0
  {
    UpendedFacts(rows, rank, x, y);
    PathRows(rows, c);
    k := At(rows, c, y);
    forall j | 0 <= j < k
      ensures Path(rows, c)[j].config.parent.Some? && Full(Path(rows, c)[j])
    {
      BeforeParent(rows, rank, x, y, c, j, k);
    }
    ChargedPastFull(Path(rows, c), rows[y].config.amount, k);
  }

  /** A settlement of y's amount, from y or from x, is paid by y while y is empty. */
  lemma ParentPays(rows: map<Id, Budget>, rank: map<Id, nat>, x: Id, y: Id, c: Id)
    requires Upended(rows, rank, x, y) && RestFull(rows, y) && (c == x || c == y)
    requires rows[y].usage == 0.0 && rows[x].usage == 0.0
    ensures ChargeFor(Path(rows, c), rows[y].config.amount, y) == rows[y].config.amount
    ensures ChargeFor(Path(rows, c), rows[y].config.amount, x) == 0.0
  {
    UpendedFacts(rows, rank, x, y);
    var k := ParentTakesAll(rows, rank, x, y, c);
    if c == x {
      ChildGetsNothing(rows, x, y, k, rows[y].config.amount);
    } else {
      NotOnPath(rows, y, x, rows[y].config.amount);
    }
  }

  lemma ChildGetsNothing(rows: map<Id, Budget>, x: Id, y: Id, k: nat, cost: real)
    requires Keyed(rows) && Inverted(rows, x, y) && x in Chain(rows, x)
    requires rows[x].usage == 0.0 && 0.0 < rows[x].config.amount
    requires k < |Path(rows, x)| && Path(rows, x)[k] == rows[y] && Remainder(Path(rows, x)[..k + 1], cost) == 0.0
    ensures ChargeFor(Path(rows, x), cost, x) == 0.0
  {
    PathRows(rows, x);
    var m := At(rows, x, x);
    if m < k {
      SortedLevels(RowsOf(rows, Chain(rows, x)), m, k);
    }
    NothingLeftAfter(Path(rows, x), cost, k + 1, m);
    ChargeForAt(Path(rows, x), cost, m);
  }

  lemma NotOnPath(rows: map<Id, Budget>, c: Id, i: Id, cost: real)
    requires Keyed(rows) && i !in Chain(rows, c)
    ensures ChargeFor(Path(rows, c), cost, i) == 0.0
  {
    var path := Path(rows, c);
    PathRows(rows, c);
    forall k | 0 <= k < |path|
      ensures path[k].id != i
    {
      assert Ids(path)[k] in Chain(rows, c);
    }
    ChargeForAbsent(path, cost, i);
  }

  /** A settlement from x reaches x once y is full. */
  lemma ChildPays(rows: map<Id, Budget>, rank: map<Id, nat>, x: Id, y: Id, cost: real)
    requires Upended(rows, rank, x, y) && RestFull(rows, y) && Full(rows[y])
    requires rows[x].usage == 0.0 && 0.0 < cost
    ensures 0.0 < ChargeFor(Path(rows, x), cost, x)
  {
    UpendedFacts(rows, rank, x, y);
    PathRows(rows, x);
    var k := At(rows, x, x);
    forall j | 0 <= j < k
      ensures Path(rows, x)[j].config.parent.Some? && Full(Path(rows, x)[j])
    {
      BeforeChild(rows, rank, x, y, j, k);
    }
    ChargedPastFull(Path(rows, x), cost, k);
  }

  // ----- Two orders of two settlements -------------------------------------

  lemma FullStays(db: Db, r: RequestId, cost: real, i: Id)
    requires Valid(db) && FirstHold(db.holds, r).Some? && 0.0 <= cost && i in db.rows && Full(db.rows[i])
    ensures i in Settle(db, r, cost, 0).rows
    ensures SameShape(db.rows, Settle(db, r, cost, 0).rows) ==> Full(Settle(db, r, cost, 0).rows[i])
  {
    SettledUsage(db, r, cost, 0, i);
    PathRows(db.rows, FirstHold(db.holds, r).value.budget);
    ChargeForBounds(Path(db.rows, FirstHold(db.holds, r).value.budget), cost, i);
  }

  /** After the settlement from y, y is full, x is empty, and x can still be settled. */
  lemma ParentFirst(rows: map<Id, Budget>, rank: map<Id, nat>, x: Id, y: Id)
    requires Upended(rows, rank, x, y)
    ensures var cost := rows[y].config.amount;
            var mid := Settle(Drained(rows, x, y, cost), 2, cost, 0);
            && Valid(mid) && SameShape(rows, mid.rows) && RestFull(mid.rows, y) && Full(mid.rows[y])
            && mid.rows[x].usage == 0.0 && FirstHold(mid.holds, 1) == Some(Hold(x, 1, cost, 0))
  {
    var cost := rows[y].config.amount;
    var db := Drained(rows, x, y, cost);
    UpendedFacts(rows, rank, x, y);
    DrainedFacts(rows, x, y, cost);
    UpendedShape(rows, db.rows, rank, x, y);
    StepKeepsValid(db, DoSettle(2, cost, 0));
    DrainedRestFull(rows, rank, x, y, cost);
    ParentPays(db.rows, rank, x, y, y);
    SettledUsage(db, 2, cost, 0, x);
    SettledUsage(db, 2, cost, 0, y);
    FirstHoldKept(db.holds, OfRequest(2), 1);
    RestStaysFull(db, 2, cost, y);
  }

  lemma DrainedRestFull(rows: map<Id, Budget>, rank: map<Id, nat>, x: Id, y: Id, cost: real)
    requires Upended(rows, rank, x, y)
    ensures RestFull(Drained(rows, x, y, cost).rows, y)
  {
    UpendedFacts(rows, rank, x, y);
    ChainShape(rows, Drained(rows, x, y, cost).rows, y, rows.Keys);
  }

  lemma RestStaysFull(db: Db, r: RequestId, cost: real, y: Id)
    requires Valid(db) && FirstHold(db.holds, r).Some? && 0.0 <= cost && RestFull(db.rows, y)
    ensures RestFull(Settle(db, r, cost, 0).rows, y)
  {
    var after := Settle(db, r, cost, 0);
    StepKeepsValid(db, DoSettle(r, cost, 0));
    ChainShape(db.rows, after.rows, y, db.rows.Keys);
    forall i | i in Chain(after.rows, y) && i != y
      ensures Full(after.rows[i])
    {
      FullStays(db, r, cost, i);
    }
  }

  /** After the settlement from x, x is empty, and y can still be settled. */
  lemma ChildFirst(rows: map<Id, Budget>, rank: map<Id, nat>, x: Id, y: Id)
    requires Upended(rows, rank, x, y)
    ensures var cost := rows[y].config.amount;
            var mid := Settle(Drained(rows, x, y, cost), 1, cost, 0);
            && Valid(mid) && SameShape(rows, mid.rows)
            && mid.rows[x].usage == 0.0 && FirstHold(mid.holds, 2) == Some(Hold(y, 2, cost, 0))
  {
    var cost := rows[y].config.amount;
    var db := Drained(rows, x, y, cost);
    UpendedFacts(rows, rank, x, y);
    DrainedFacts(rows, x, y, cost);
    UpendedShape(rows, db.rows, rank, x, y);
    StepKeepsValid(db, DoSettle(1, cost, 0));
    DrainedRestFull(rows, rank, x, y, cost);
    ParentPays(db.rows, rank, x, y, x);
    SettledUsage(db, 1, cost, 0, x);
    FirstHoldKept(db.holds, OfRequest(1), 2);
  }

  lemma ThenChild(rows: map<Id, Budget>, mid: Db, rank: map<Id, nat>, x: Id, y: Id, cost: real)
    requires Upended(rows, rank, x, y) && Valid(mid) && SameShape(rows, mid.rows) && 0.0 < cost
    requires RestFull(mid.rows, y) && Full(mid.rows[y]) && mid.rows[x].usage == 0.0
    requires FirstHold(mid.holds, 1) == Some(Hold(x, 1, cost, 0))
    ensures x in Settle(mid, 1, cost, 0).rows && 0.0 < Settle(mid, 1, cost, 0).rows[x].usage
  {
    UpendedShape(rows, mid.rows, rank, x, y);
    ChildPays(mid.rows, rank, x, y, cost);
    SettledUsage(mid, 1, cost, 0, x);
  }

  lemma ThenParent(rows: map<Id, Budget>, mid: Db, rank: map<Id, nat>, x: Id, y: Id, cost: real)
    requires Upended(rows, rank, x, y) && Valid(mid) && SameShape(rows, mid.rows) && mid.rows[x].usage == 0.0
    requires FirstHold(mid.holds, 2) == Some(Hold(y, 2, cost, 0))
    ensures x in Settle(mid, 2, cost, 0).rows && Settle(mid, 2, cost, 0).rows[x].usage == 0.0
  {
    UpendedShape(rows, mid.rows, rank, x, y);
    UpendedFacts(mid.rows, rank, x, y);
    NotOnPath(mid.rows, y, x, cost);
    SettledUsage(mid, 2, cost, 0, x);
  }

  lemma PairRuns(db: Db, e1: Event, e2: Event)
    ensures Run(db, [e1, e2]) == Step(Step(db, e1), e2)
  {
    assert [e1, e2][..1] == [e1] && [e1][..0] == [];
    assert Run(db, [e1]) == Step(db, e1);
  }

  lemma PairIsBatch(db: Db, r1: RequestId, r2: RequestId, cost: real)
    requires r1 != r2 && 0.0 <= cost && FirstHold(db.holds, r1).Some? && FirstHold(db.holds, r2).Some?
    ensures Batch(db, [DoSettle(r1, cost, 0), DoSettle(r2, cost, 0)])
  {
  }

  lemma OrderShows(rows: map<Id, Budget>, db: Db, xs: seq<Event>, ys: seq<Event>, x: Id)
    requires Valid(db) && SameShape(rows, db.rows) && Batch(db, xs) && Batch(db, ys) && multiset(xs) == multiset(ys)
    requires x in Run(db, xs).rows && x in Run(db, ys).rows && Run(db, xs).rows[x].usage != Run(db, ys).rows[x].usage
    ensures !OrderFreeAt(rows, db, xs, ys)
  {
    assert UsagesOf(Run(db, xs).rows)[x] != UsagesOf(Run(db, ys).rows)[x];
  }

  lemma ChildLast(rows: map<Id, Budget>, rank: map<Id, nat>, x: Id, y: Id, db: Db, cost: real)
    requires Upended(rows, rank, x, y) && cost == rows[y].config.amount && db == Drained(rows, x, y, cost)
    ensures var after := Run(db, [DoSettle(2, cost, 0), DoSettle(1, cost, 0)]);
            x in after.rows && 0.0 < after.rows[x].usage
  {
    ParentFirst(rows, rank, x, y);
    ThenChild(rows, Settle(db, 2, cost, 0), rank, x, y, cost);
    PairRuns(db, DoSettle(2, cost, 0), DoSettle(1, cost, 0));
  }

  lemma ParentLast(rows: map<Id, Budget>, rank: map<Id, nat>, x: Id, y: Id, db: Db, cost: real)
    requires Upended(rows, rank, x, y) && cost == rows[y].config.amount && db == Drained(rows, x, y, cost)
    ensures var after := Run(db, [DoSettle(1, cost, 0), DoSettle(2, cost, 0)]);
            x in after.rows && after.rows[x].usage == 0.0
  {
    ChildFirst(rows, rank, x, y);
    ThenParent(rows, Settle(db, 1, cost, 0), rank, x, y, cost);
    PairRuns(db, DoSettle(1, cost, 0), DoSettle(2, cost, 0));
  }

  /** With a budget above its parent's level, two settlements leave it empty in one order only. */
  lemma LevelsMatter(rows: map<Id, Budget>, rank: map<Id, nat>, x: Id, y: Id)
    returns (db: Db, xs: seq<Event>, ys: seq<Event>)
    requires Upended(rows, rank, x, y)
    ensures !OrderFreeAt(rows, db, xs, ys)
    ensures x in Run(db, xs).rows && x in Run(db, ys).rows
    ensures Run(db, xs).rows[x].usage == 0.0 < Run(db, ys).rows[x].usage
  {
    var cost := rows[y].config.amount;
    db := Drained(rows, x, y, cost);
    xs, ys := [DoSettle(1, cost, 0), DoSettle(2, cost, 0)], [DoSettle(2, cost, 0), DoSettle(1, cost, 0)];
    UpendedFacts(rows, rank, x, y);
    DrainedFacts(rows, x, y, cost);
    PairIsBatch(db, 1, 2, cost);
    PairIsBatch(db, 2, 1, cost);
    ParentLast(rows, rank, x, y, db, cost);
    ChildLast(rows, rank, x, y, db, cost);
    OrderShows(rows, db, xs, ys, x);
  }

  lemma SomeInverted(rows: map<Id, Budget>, rank: map<Id, nat>) returns (x: Id, y: Id)
    requires Ranked(rows, rank) && !LevelsAscend(rows)
    ensures Inverted(rows, x, y)
  {
    x :| x in rows && rows[x].config.parent.Some? && rows[x].config.parent.value in rows &&
      Level(rows[rows[x].config.parent.value].entity) < Level(rows[x].entity);
    y := rows[x].config.parent.value;
  }

  lemma AscendingIsFree(rows: map<Id, Budget>, rank: map<Id, nat>, db: Db, xs: seq<Event>, ys: seq<Event>)
    requires Ranked(rows, rank) && LevelsAscend(rows)
    ensures OrderFreeAt(rows, db, xs, ys)
  {
    if Valid(db) && SameShape(rows, db.rows) && Batch(db, xs) && Batch(db, ys) && multiset(xs) == multiset(ys) {
      RankedShape(rows, db.rows, rank);
      SettlementOrderIrrelevant(db, rank, xs, ys);
    }
  }

  /**
    On a forest with positive amounts, whose parents are not isolated and whose roots stand
    on top: any two orders of any batch of settlements leave the same usages, from every
    state, iff no budget stands at a higher level than its parent.
   */
  lemma OrderFreeIff(rows: map<Id, Budget>, rank: map<Id, nat>)
    requires Keyed(rows) && Ranked(rows, rank) && ParentsOpen(rows) && RootsOnTop(rows)
    requires forall i :: i in rows ==> 0.0 < rows[i].config.amount
    ensures OrderFree(rows) <==> LevelsAscend(rows)
  {
    if LevelsAscend(rows) {
      forall db, xs, ys
        ensures OrderFreeAt(rows, db, xs, ys)
      {
        AscendingIsFree(rows, rank, db, xs, ys);
      }
    } else {
      var x, y := SomeInverted(rows, rank);
      var db, xs, ys := LevelsMatter(rows, rank, x, y);
    }
  }
}
