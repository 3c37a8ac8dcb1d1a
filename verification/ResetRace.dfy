/**
  A reset zeroes pending and keeps the reservations, so a period may open with traffic in
  flight that admission cannot see. Here: when exactly that lets a root budget overspend.
 */
module ResetRace {
  import opened Model
  import opened Hierarchy
  import opened BucketFill
  import opened Admission
  import opened Database
  import opened Requests
  import opened PendingUsage
  import opened Overspend
  import opened PathIndependence
  import opened Commutation

  /** A period in which everything goes as intended: no settlement exceeds its estimate. */
  ghost predicate GoodPeriod(db: Db, es: seq<Event>, b: Id) {
    Atomic(es) && WithinPeriod(es) && FreshRun(db, es) && ChargesReserved(db, es, b) && WithinEstimates(db, es)
  }

  ghost predicate StaysWithin(db: Db, es: seq<Event>, b: Id) {
    GoodPeriod(db, es, b) ==> b in Run(db, es).rows && Run(db, es).rows[b].usage <= Run(db, es).rows[b].config.amount
  }

  /** Nothing is pending on this budget and it is not overspent; a reset leaves every budget so. */
  predicate AtRest(row: Budget) {
    Enabled(row) && row.pending == 0.0 && row.usage <= row.config.amount
  }

  /** What passes every overflow on to the parent, at once or after it has been filled. */
  predicate Fillable(row: Budget) {
    Full(row) || AtRest(row)
  }

  /** Settling the request that holds `h` climbs to b over budgets that can be filled first. */
  ghost predicate ClimbsTo(db: Db, h: Hold, b: Id)
    requires FirstHold(db.holds, h.request).Some?
  {
    var c := FirstHold(db.holds, h.request).value.budget;
    && b in Chain(db.rows, c) && InLevelOrder(db.rows, c)
    && forall i :: i in Chain(db.rows, c) && i != b ==> Fillable(db.rows[i])
  }

  // ----- Chains that end at a root -----------------------------------------

  ghost predicate Climbs(rows: map<Id, Budget>, path: seq<Id>) {
    && path != [] && Distinct(path)
    && (forall i :: 0 <= i < |path| ==> path[i] in rows)
    && (forall i :: 0 <= i < |path| - 1 ==> rows[path[i]].config.parent == Some(path[i + 1]))
    && rows[path[|path| - 1]].IsRoot()
  }

  lemma {:induction false} ChainClimbs(rows: map<Id, Budget>, c: Id, open: set<Id>, b: Id)
    requires b in rows && rows[b].IsRoot() && b in ChainIn(rows, c, open)
    ensures var path := ChainIn(rows, c, open); Climbs(rows, path) && path[0] == c && path[|path| - 1] == b
    decreases open
  {
    ChainDistinct(rows, c, open);
    if rows[c].config.parent.Some? {
      var p := rows[c].config.parent.value;
      var path, up := ChainIn(rows, c, open), ChainIn(rows, p, open - {c});
      assert path == [c] + up && b in up;
      ChainClimbs(rows, p, open - {c}, b);
    }
  }

  lemma {:induction false} ClimbIsChain(rows: map<Id, Budget>, path: seq<Id>, open: set<Id>)
    requires Climbs(rows, path) && forall i :: 0 <= i < |path| ==> path[i] in open
    ensures ChainIn(rows, path[0], open) == path
    decreases |path|
  {
    if |path| > 1 {
      ClimbIsChain(rows, path[1..], open - {path[0]});
      assert path == [path[0]] + path[1..];
    }
  }

  /** The chain of a budget further up, and its order. */
  lemma ChainAbove(rows: map<Id, Budget>, path: seq<Id>, k: nat)
    requires Climbs(rows, path) && k < |path| && InLevelOrder(rows, path[0])
    ensures Chain(rows, path[k]) == path[k..] && InLevelOrder(rows, path[k])
  {
    ClimbIsChain(rows, path, rows.Keys);
    ClimbIsChain(rows, path[k..], rows.Keys);
    var bs, above := RowsOf(rows, path), RowsOf(rows, path[k..]);
    assert forall i :: 0 <= i < |above| ==> above[i] == bs[k + i];
  }

  // ----- Filling one budget ------------------------------------------------

  lemma HeadCharge(b: Budget, tail: seq<Budget>, cost: real, i: Id)
    requires Distinct(Ids(tail)) && 0.0 <= cost && (b.IsRoot() ==> tail == [])
    requires b.IsRoot() || (!b.config.isolated && cost <= b.config.amount - b.usage)
    ensures ChargeFor([b] + tail, cost, i) == if i == b.id then cost else 0.0
  {
    ChargeForCons(b, tail, cost, i);
    assert Charge(b, cost) == cost;
    if tail != [] {
      assert Rest(b, cost) == 0.0;
      ChargeForBounds(tail, 0.0, i);
    }
  }

  /** A chain in level order is processed from its own budget upwards. */
  lemma PathHead(rows: map<Id, Budget>, c: Id) returns (tail: seq<Budget>)
    requires Keyed(rows) && c in rows && InLevelOrder(rows, c) && Chain(rows, c) != [] && Chain(rows, c)[0] == c
    ensures Path(rows, c) == [rows[c]] + tail && Distinct(Ids(tail)) && (rows[c].IsRoot() ==> tail == [])
  {
    var path := RowsOf(rows, Chain(rows, c));
    LevelPath(rows, c);
    ChainDistinct(rows, c, rows.Keys);
    IdsOfRows(rows, Chain(rows, c));
    TailDistinct(path);
    tail := path[1..];
  }

  lemma TailDistinct(path: seq<Budget>)
    requires path != [] && Distinct(Ids(path))
    ensures path == [path[0]] + path[1..] && Distinct(Ids(path[1..]))
  {
    assert Ids(path[1..]) == Ids(path)[1..];
  }

  /** A settlement that fits its first budget, or starts at a root, charges only that budget. */
  lemma OwnCharge(rows: map<Id, Budget>, c: Id, cost: real, i: Id)
    requires Keyed(rows) && c in rows && 0.0 <= cost && InLevelOrder(rows, c)
    requires Chain(rows, c) != [] && Chain(rows, c)[0] == c
    requires rows[c].IsRoot() || (!rows[c].config.isolated && cost <= rows[c].config.amount - rows[c].usage)
    ensures ChargeFor(Path(rows, c), cost, i) == if i == c then cost else 0.0
  {
    var tail := PathHead(rows, c);
    HeadCharge(rows[c], tail, cost, i);
  }

  lemma {:induction false} KeptOthers(holds: seq<Hold>, r: RequestId)
    requires forall h :: h in holds ==> h.request != r
    ensures Kept(holds, OfRequest(r)) == holds
  {
    if holds != [] {
      assert holds[|holds| - 1] in holds;
      KeptOthers(holds[..|holds| - 1], r);
    }
  }

  lemma KeptOthersSnoc(holds: seq<Hold>, h: Hold)
    requires forall g :: g in holds ==> g.request != h.request
    ensures Kept(holds + [h], OfRequest(h.request)) == holds
  {
    KeptOthers(holds, h.request);
    assert (holds + [h])[..|holds|] == holds;
  }

  function RoomOf(row: Budget): real {
    row.config.amount - row.usage
  }

  lemma OneRowMatched(db: Db, c: Id)
    requires c in db.rows
    ensures MatchedRows(db, [c]) == [db.rows[c]]
  {
    assert RowsOf(db.rows, [c]) == [db.rows[c]];
    SortedKeepsOrdered([db.rows[c]]);
  }

  lemma OneRowAdmits(row: Budget, estimate: real)
    requires row.Remaining() >= estimate
    ensures Admits([row], estimate)
  {
  }

  lemma OneRowHeld(rows: map<Id, Budget>, row: Budget, estimate: real)
    requires Keyed(rows) && row.id in rows && rows[row.id] == row
    ensures HeldRows(rows, [row], estimate) == rows[row.id := row.(pending := row.pending + estimate)]
  {
    assert Ids([row]) == [row.id];
  }

  /** Everything that a budget at rest has left can be reserved for one new request. */
  lemma RoomReserved(db: Db, c: Id, novel: RequestId, room: real)
    requires Valid(db) && c in db.rows && AtRest(db.rows[c]) && FirstHold(db.holds, novel).None?
    requires room == RoomOf(db.rows[c])
    ensures var row, h := db.rows[c], Hold(c, novel, room, 0);
            var mid := Step(db, DoReserve([c], room, novel, 0));
            && mid.holds == db.holds + [h] && FirstHold(mid.holds, novel) == Some(h)
            && mid.rows == db.rows[c := row.(pending := row.pending + room)]
  {
    RoomAdmitted(db, c, novel, room);
    OneRowStep(db, c, novel, room);
    RoomTaken(db, Step(db, DoReserve([c], room, novel, 0)), c, room, novel);
  }

  lemma RoomTaken(db: Db, mid: Db, c: Id, room: real, novel: RequestId)
    requires Keyed(db.rows) && c in db.rows && Admits([db.rows[c]], room) && !Clashes(db.holds, [db.rows[c]], novel)
    requires mid == Reserve(db, [db.rows[c]], room, novel, 0)
    ensures mid.rows == db.rows[c := db.rows[c].(pending := db.rows[c].pending + room)]
    ensures mid.holds == db.holds + [Hold(c, novel, room, 0)]
  {
    OneRowReserved(db, db.rows[c], room, novel);
  }

  lemma OneRowStep(db: Db, c: Id, novel: RequestId, room: real)
    requires Valid(db) && c in db.rows && Legal(db, DoReserve([c], room, novel, 0))
    requires MatchedRows(db, [c]) == [db.rows[c]] && Admits([db.rows[c]], room) && FirstHold(db.holds, novel).None?
    ensures var mid := Step(db, DoReserve([c], room, novel, 0));
            mid == Reserve(db, [db.rows[c]], room, novel, 0)
              && FirstHold(mid.holds, novel) == Some(Hold(c, novel, room, 0))
  {
    FreshReserveHolds(db, [c], room, novel, 0);
  }

  lemma RoomAdmitted(db: Db, c: Id, novel: RequestId, room: real)
    requires Valid(db) && c in db.rows && AtRest(db.rows[c]) && FirstHold(db.holds, novel).None?
    requires room == RoomOf(db.rows[c])
    ensures Legal(db, DoReserve([c], room, novel, 0))
    ensures MatchedRows(db, [c]) == [db.rows[c]]
    ensures Admits([db.rows[c]], room) && !Clashes(db.holds, [db.rows[c]], novel)
  {
    OneRowMatched(db, c);
    OneRowAdmits(db.rows[c], room);
  }

  lemma OneRowReserved(db: Db, row: Budget, room: real, novel: RequestId)
    requires Keyed(db.rows) && row.id in db.rows && db.rows[row.id] == row
    requires Admits([row], room) && !Clashes(db.holds, [row], novel)
    ensures Reserve(db, [row], room, novel, 0).rows == db.rows[row.id := row.(pending := row.pending + room)]
    ensures Reserve(db, [row], room, novel, 0).holds == db.holds + [Hold(row.id, novel, room, 0)]
  {
    assert NewHolds([row], novel, room, 0) == [Hold(row.id, novel, room, 0)];
    OneRowHeld(db.rows, row, room);
  }

  /** The second state is the first with budget c filled. */
  ghost predicate Filled1(db: Db, after: Db, c: Id) {
    && c in db.rows && Valid(after) && SameShape(db.rows, after.rows) && after.holds == db.holds
    && after.rows[c].usage == db.rows[c].config.amount
    && forall i {:trigger UntouchedAt(db, after, i)} :: i in db.rows && i != c ==> UntouchedAt(db, after, i)
  }

  ghost predicate UntouchedAt(db: Db, after: Db, i: Id) {
    && i in db.rows && i in after.rows
    && after.rows[i].usage == db.rows[i].usage && after.rows[i].pending == db.rows[i].pending
  }

  lemma RoomSettledAt(mid: Db, c: Id, novel: RequestId, room: real, i: Id)
    requires Valid(mid) && c in mid.rows && i in mid.rows && 0.0 <= room && InLevelOrder(mid.rows, c)
    requires FirstHold(mid.holds, novel) == Some(Hold(c, novel, room, 0))
    requires Chain(mid.rows, c) != [] && Chain(mid.rows, c)[0] == c
    requires mid.rows[c].IsRoot() || (!mid.rows[c].config.isolated && room <= RoomOf(mid.rows[c]))
    ensures i in Settle(mid, novel, room, 0).rows
    ensures var row := Settle(mid, novel, room, 0).rows[i];
            && row.usage == mid.rows[i].usage + (if i == c then room else 0.0)
            && (i != c ==> row.pending == mid.rows[i].pending)
  {
    OwnCharge(mid.rows, c, room, i);
    SettleEffect(mid, novel, room, 0, i);
  }

  /** And settling that request at its estimate charges that budget and touches no other. */
  lemma RoomSettled(mid: Db, c: Id, novel: RequestId, room: real)
    requires Valid(mid) && c in mid.rows && 0.0 <= room && InLevelOrder(mid.rows, c)
    requires FirstHold(mid.holds, novel) == Some(Hold(c, novel, room, 0))
    requires Chain(mid.rows, c) != [] && Chain(mid.rows, c)[0] == c
    requires mid.rows[c].IsRoot() || (!mid.rows[c].config.isolated && room <= RoomOf(mid.rows[c]))
    ensures var after := Step(mid, DoSettle(novel, room, 0));
            && after.holds == Kept(mid.holds, OfRequest(novel))
            && c in after.rows && after.rows[c].usage == mid.rows[c].usage + room
            && forall i {:trigger UntouchedAt(mid, after, i)} :: i in mid.rows && i != c ==> UntouchedAt(mid, after, i)
  {
    RoomSettledAt(mid, c, novel, room, c);
    forall i | i in mid.rows && i != c
      ensures UntouchedAt(mid, Settle(mid, novel, room, 0), i)
    {
      RoomSettledAt(mid, c, novel, room, i);
    }
  }

  lemma ThenFilled(db: Db, mid: Db, after: Db, c: Id, novel: RequestId, room: real)
    requires Valid(after) && SameShape(db.rows, after.rows) && c in db.rows && room == RoomOf(db.rows[c])
    requires mid.rows == db.rows[c := db.rows[c].(pending := db.rows[c].pending + room)]
    requires mid.holds == db.holds + [Hold(c, novel, room, 0)] && FirstHold(db.holds, novel).None?
    requires after.holds == Kept(mid.holds, OfRequest(novel)) && after.rows[c].usage == mid.rows[c].usage + room
    requires forall i {:trigger UntouchedAt(mid, after, i)} :: i in mid.rows && i != c ==> UntouchedAt(mid, after, i)
    ensures Filled1(db, after, c)
  {
    KeptOthersSnoc(db.holds, Hold(c, novel, room, 0));
    forall i | i in db.rows && i != c
      ensures UntouchedAt(db, after, i)
    {
      assert UntouchedAt(mid, after, i);
    }
  }

  lemma SameChain(rows: map<Id, Budget>, other: map<Id, Budget>, c: Id)
    requires SameShape(rows, other) && InLevelOrder(rows, c)
    ensures Chain(other, c) == Chain(rows, c) && InLevelOrder(other, c)
  {
    ChainShape(rows, other, c, rows.Keys);
    var bs, cs := RowsOf(rows, Chain(rows, c)), RowsOf(other, Chain(other, c));
    assert forall i :: 0 <= i < |bs| ==> cs[i].entity == bs[i].entity;
  }

  /** Off b the settlement charges b nothing; on b the request has its reservation. */
  lemma FillingIsGood(mid: Db, c: Id, b: Id, novel: RequestId)
    requires Valid(mid) && FirstHold(mid.holds, novel).Some? && FirstHold(mid.holds, novel).value.budget == c
    requires c in mid.rows && b in mid.rows && InLevelOrder(mid.rows, c)
    requires Chain(mid.rows, c) != [] && Chain(mid.rows, c)[0] == c
    requires var room := FirstHold(mid.holds, novel).value.estimate;
             0.0 <= room && (mid.rows[c].IsRoot() || (!mid.rows[c].config.isolated && room <= RoomOf(mid.rows[c])))
    ensures var e := DoSettle(novel, FirstHold(mid.holds, novel).value.estimate, 0);
            Fresh(mid, e) && ChargeReserved(mid, e, b) && ExcessBy(mid, e) == 0.0
  {
    OwnCharge(mid.rows, c, FirstHold(mid.holds, novel).value.estimate, b);
    if c == b {
      assert HasHold(mid.holds, novel, b);
    }
  }

  lemma GoodAppend(db: Db, es: seq<Event>, e: Event, b: Id)
    requires GoodPeriod(db, es, b) && !e.DoCommit? && !e.DoReset?
    requires Fresh(Run(db, es), e) && ChargeReserved(Run(db, es), e, b) && ExcessBy(Run(db, es), e) == 0.0
    ensures GoodPeriod(db, es + [e], b) && Run(db, es + [e]) == Step(Run(db, es), e)
  {
    assert (es + [e])[..|es|] == es;
  }

  /** A good period can go on with filling one more budget at rest. */
  lemma FillOne(db: Db, es: seq<Event>, c: Id, b: Id, novel: RequestId) returns (more: seq<Event>)
    requires GoodPeriod(db, es, b) && Valid(Run(db, es)) && FirstHold(Run(db, es).holds, novel).None?
    requires var rows := Run(db, es).rows;
             && c in rows && b in rows && AtRest(rows[c]) && InLevelOrder(rows, c)
             && Chain(rows, c) != [] && Chain(rows, c)[0] == c && (rows[c].IsRoot() || !rows[c].config.isolated)
    ensures GoodPeriod(db, more, b) && Filled1(Run(db, es), Run(db, more), c)
  {
    var at := Run(db, es);
    var room := RoomOf(at.rows[c]);
    var x, y := DoReserve([c], room, novel, 0), DoSettle(novel, room, 0);
    RoomReserved(at, c, novel, room);
    GoodAppend(db, es, x, b);
    var mid := Step(at, x);
    StepKeepsValid(at, x);
    SameChain(at.rows, mid.rows, c);
    FillingIsGood(mid, c, b, novel);
    GoodAppend(db, es + [x], y, b);
    RoomSettled(mid, c, novel, room);
    StepKeepsValid(mid, y);
    ThenFilled(at, mid, Step(mid, y), c, novel, room);
    more := es + [x] + [y];
  }

  // ----- Filling a chain ---------------------------------------------------

  /** Where the filling of `path` stands once its first k budgets have been filled. */
  ghost predicate FilledUpTo(db: Db, at: Db, path: seq<Id>, k: nat)
    requires k <= |path|
  {
    && Valid(at) && SameShape(db.rows, at.rows) && at.holds == db.holds
    && (forall j :: 0 <= j < k ==> path[j] in at.rows && Full(at.rows[path[j]]))
    && forall j :: k <= j < |path| ==> UntouchedAt(db, at, path[j])
  }

  lemma FilledNext(db: Db, at: Db, after: Db, path: seq<Id>, k: nat)
    requires Distinct(path) && k < |path| && FilledUpTo(db, at, path, k) && Filled1(at, after, path[k])
    ensures FilledUpTo(db, after, path, k + 1)
  {
    forall j | 0 <= j < k
      ensures path[j] in after.rows && Full(after.rows[path[j]])
    {
      assert UntouchedAt(at, after, path[j]);
    }
    forall j | k + 1 <= j < |path|
      ensures UntouchedAt(db, after, path[j])
    {
      assert UntouchedAt(db, at, path[j]) && UntouchedAt(at, after, path[j]);
    }
  }

  /** A good run that fills the first k budgets of a chain below the root b, or the root as well. */
  lemma {:induction false} FillChain(db: Db, path: seq<Id>, k: nat, b: Id, novel: RequestId) returns (es: seq<Event>)
    requires Valid(db) && Climbs(db.rows, path) && InLevelOrder(db.rows, path[0]) && k <= |path|
    requires b == path[|path| - 1] && AtRest(db.rows[b]) && FirstHold(db.holds, novel).None?
    requires forall j :: 0 <= j < |path| - 1 ==> Fillable(db.rows[path[j]])
    ensures GoodPeriod(db, es, b) && FilledUpTo(db, Run(db, es), path, k)
    ensures k == |path| ==> Run(db, es).rows[b].usage == db.rows[b].config.amount
  {
    if k == 0 {
      es := [];
    } else {
      var c := path[k - 1];
      es := FillChain(db, path, k - 1, b, novel);
      var at := Run(db, es);
      assert UntouchedAt(db, at, c) && UntouchedAt(db, at, b);
      if k == |path| || !Full(db.rows[c]) {
        ChainAbove(db.rows, path, k - 1);
        SameChain(db.rows, at.rows, c);
        es := FillOne(db, es, c, b, novel);
        FilledNext(db, at, Run(db, es), path, k - 1);
      }
    }
  }

  // ----- The race ----------------------------------------------------------

  /** On a full chain the root pays for everything. */
  lemma RootPays(rows: map<Id, Budget>, path: seq<Id>, cost: real)
    requires Keyed(rows) && Climbs(rows, path) && InLevelOrder(rows, path[0]) && 0.0 <= cost
    requires forall j :: 0 <= j < |path| - 1 ==> Full(rows[path[j]])
    ensures ChargeFor(Path(rows, path[0]), cost, path[|path| - 1]) == cost
  {
    var n := |path| - 1;
    var bs := RowsOf(rows, path);
    ChainAbove(rows, path, 0);
    assert path[0..] == path;
    LevelPath(rows, path[0]);
    IdsOfRows(rows, path);
    forall j | 0 <= j < n
      ensures bs[j].config.parent.Some? && Full(bs[j])
    {
      assert bs[j] == rows[path[j]] && rows[path[j]].config.parent == Some(path[j + 1]);
    }
    FullPassesOn(bs[..n], cost);
    ChargeForAt(bs, cost, n);
  }

  lemma {:induction false} UnusedRequest(holds: seq<Hold>) returns (r: RequestId)
    ensures forall h :: h in holds ==> h.request < r
  {
    r := 0;
    if holds != [] {
      var init, h := holds[..|holds| - 1], holds[|holds| - 1];
      r := UnusedRequest(init);
      r := if r <= h.request then h.request + 1 else r;
      assert holds == init + [h];
    }
  }

  lemma {:induction false} SomeHold(holds: seq<Hold>, b: Id) returns (h: Hold)
    requires 0.0 < Reserved(holds, b)
    ensures h in holds && h.budget == b && 0.0 < h.estimate
  {
    var init, last := holds[..|holds| - 1], holds[|holds| - 1];
    assert holds == init + [last];
    if last.budget == b && 0.0 < last.estimate {
      h := last;
    } else {
      h := SomeHold(init, b);
    }
  }

  /** Settling the old request after its chain has been filled charges b the estimate. */
  lemma OldSettles(db: Db, at: Db, path: seq<Id>, b: Id, h: Hold)
    requires Valid(at) && SameShape(db.rows, at.rows) && at.holds == db.holds && Uniform(db.holds)
    requires h in db.holds && h.budget == b && FirstHold(db.holds, h.request).Some?
    requires Climbs(db.rows, path) && InLevelOrder(db.rows, path[0]) && b == path[|path| - 1]
    requires path[0] == FirstHold(db.holds, h.request).value.budget && 0.0 <= h.estimate && b in at.rows
    requires forall j :: 0 <= j < |path| - 1 ==> path[j] in at.rows && Full(at.rows[path[j]])
    ensures var e := DoSettle(h.request, h.estimate, 0);
            && Fresh(at, e) && ChargeReserved(at, e, b) && ExcessBy(at, e) == 0.0
            && b in Step(at, e).rows && Step(at, e).rows[b].usage == at.rows[b].usage + h.estimate
  {
    assert HasHold(at.holds, h.request, b);
    ClimbsShape(db.rows, at.rows, path);
    RootPays(at.rows, path, h.estimate);
    SettledUsage(at, h.request, h.estimate, 0, b);
  }

  lemma ClimbsShape(rows: map<Id, Budget>, other: map<Id, Budget>, path: seq<Id>)
    requires Climbs(rows, path) && SameShape(rows, other) && InLevelOrder(rows, path[0])
    ensures Climbs(other, path) && InLevelOrder(other, path[0])
  {
    SameChain(rows, other, path[0]);
  }

  /**
    The race: fill every budget between the first reserved one and the root, then the root,
    each with a reservation and a settlement of its own, and settle the old request last.
    Nothing exceeds its estimate, and the root ends above its amount by the old estimate.
   */
  lemma RaceIsGood(db: Db, b: Id, h: Hold) returns (es: seq<Event>)
    requires Valid(db) && Uniform(db.holds) && b in db.rows && db.rows[b].IsRoot() && AtRest(db.rows[b])
    requires h in db.holds && h.budget == b && FirstHold(db.holds, h.request).Some? && ClimbsTo(db, h, b)
    ensures GoodPeriod(db, es, b) && b in Run(db, es).rows
    ensures Run(db, es).rows[b].usage == db.rows[b].config.amount + h.estimate
    ensures Run(db, es).rows[b].config == db.rows[b].config
  {
    var path := Chain(db.rows, FirstHold(db.holds, h.request).value.budget);
    ChainClimbs(db.rows, FirstHold(db.holds, h.request).value.budget, db.rows.Keys, b);
    assert forall j :: 0 <= j < |path| - 1 ==> path[j] in path && path[j] != b;
    var novel := UnusedRequest(db.holds);
    es := FillChain(db, path, |path|, b, novel);
    OldSettles(db, Run(db, es), path, b, h);
    GoodAppend(db, es, DoSettle(h.request, h.estimate, 0), b);
    es := es + [DoSettle(h.request, h.estimate, 0)];
    RunKeepsValid(db, es);
  }

  /**
    A root budget with nothing pending, as a reset leaves it, whose reservations climb to it
    over budgets in level order that are full, isolated, or at rest themselves: usage stays
    within the amount in every good run of the period exactly if nothing is reserved on it.
   */
  lemma ResetIsSafeIff(db: Db, b: Id)
    requires Valid(db) && Uniform(db.holds) && b in db.rows && db.rows[b].IsRoot() && AtRest(db.rows[b])
    requires 0.0 <= db.rows[b].config.amount
    requires forall h :: h in db.holds && h.budget == b ==> FirstHold(db.holds, h.request).Some? && ClimbsTo(db, h, b)
    ensures (forall es :: StaysWithin(db, es, b)) <==> Reserved(db.holds, b) == 0.0
  {
    ReservedNonNegative(db.holds, b);
    if Reserved(db.holds, b) == 0.0 {
      forall es
        ensures StaysWithin(db, es, b)
      {
        if GoodPeriod(db, es, b) {
          QuietPeriod(db, es, b);
          NoOverspend(db, es, b);
          RunKeepsValid(db, es);
        }
      }
    } else {
      var h := SomeHold(db.holds, b);
      var es := RaceIsGood(db, b, h);
      assert !StaysWithin(db, es, b);
    }
  }

  lemma {:induction false} QuietPeriod(db: Db, es: seq<Event>, b: Id)
    requires WithinPeriod(es)
    ensures QuietResets(db, es, b)
  {
    if es != [] {
      QuietPeriod(db, es[..|es| - 1], b);
    }
  }
}
