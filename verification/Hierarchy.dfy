/**
  The budget forest: ancestor chains (GetBudgetsWithParent) and the
  children-first processing order (sortBudgetsByHierarchy).
 */
module Hierarchy {
  import opened Model

  // ----- Processing order --------------------------------------------------

  function Level(t: EntityType): nat {
    match t
    case User => 0
    case Team => 1
    case Org => 2
  }

  function OfType(bs: seq<Budget>, t: EntityType): seq<Budget> {
    if bs == [] then [] else
      var b := bs[|bs| - 1];
      OfType(bs[..|bs| - 1], t) + if b.entity == t then [b] else []
  }

  /** User rows, then team rows, then org rows, each group in its old order. */
  function Sorted(bs: seq<Budget>): seq<Budget> {
    OfType(bs, User) + OfType(bs, Team) + OfType(bs, Org)
  }

  method SortByHierarchy(bs: seq<Budget>) returns (sorted: seq<Budget>)
    ensures sorted == Sorted(bs)
  {
    sorted := [];
    for i := 0 to |bs|
      invariant sorted == OfType(bs[..i], User)
    {
      assert bs[..i + 1][..i] == bs[..i];
      if bs[i].entity == User {
        sorted := sorted + [bs[i]];
      }
    }
    assert bs[..|bs|] == bs;
    for i := 0 to |bs|
      invariant sorted == OfType(bs, User) + OfType(bs[..i], Team)
    {
      assert bs[..i + 1][..i] == bs[..i];
      if bs[i].entity == Team {
        sorted := sorted + [bs[i]];
      }
    }
    for i := 0 to |bs|
      invariant sorted == OfType(bs, User) + OfType(bs, Team) + OfType(bs[..i], Org)
    {
      assert bs[..i + 1][..i] == bs[..i];
      if bs[i].entity == Org {
        sorted := sorted + [bs[i]];
      }
    }
  }

  lemma {:induction false} OfTypeCounts(bs: seq<Budget>, t: EntityType, b: Budget)
    ensures multiset(OfType(bs, t))[b] == if b.entity == t then multiset(bs)[b] else 0
  {
    if bs != [] {
      OfTypeCounts(bs[..|bs| - 1], t, b);
      assert bs == bs[..|bs| - 1] + [bs[|bs| - 1]];
    }
  }

  lemma {:induction false} OfTypeUniform(bs: seq<Budget>, t: EntityType)
    ensures forall b :: b in OfType(bs, t) ==> b.entity == t && b in bs
  {
    if bs != [] {
      OfTypeUniform(bs[..|bs| - 1], t);
    }
  }

  /** The order is a permutation of the rows. */
  lemma SortedIsPermutation(bs: seq<Budget>)
    ensures multiset(Sorted(bs)) == multiset(bs)
    ensures forall b :: b in Sorted(bs) <==> b in bs
    ensures |Sorted(bs)| == |bs|
  {
    var s := Sorted(bs);
    forall b: Budget
      ensures multiset(s)[b] == multiset(bs)[b]
    {
      OfTypeCounts(bs, User, b);
      OfTypeCounts(bs, Team, b);
      OfTypeCounts(bs, Org, b);
    }
    SameMembers(s, bs);
  }

  lemma SameMembers(s: seq<Budget>, t: seq<Budget>)
    requires multiset(s) == multiset(t)
    ensures |s| == |t|
    ensures forall b :: b in s <==> b in t
  {
    assert |s| == |multiset(s)| == |multiset(t)| == |t|;
    assert forall b :: b in s <==> b in multiset(s);
    assert forall b :: b in t <==> b in multiset(t);
  }

  /** Levels never go down along the order: children are visited before parents. */
  lemma SortedLevels(bs: seq<Budget>, i: nat, j: nat)
    requires i < j < |Sorted(bs)|
    ensures Level(Sorted(bs)[i].entity) <= Level(Sorted(bs)[j].entity)
  {
    var u, t, o := OfType(bs, User), OfType(bs, Team), OfType(bs, Org);
    OfTypeUniform(bs, User);
    OfTypeUniform(bs, Team);
    OfTypeUniform(bs, Org);
    if j < |u| {
      assert Sorted(bs)[i] in u;
    } else if j < |u| + |t| {
      assert Sorted(bs)[j] in t;
      assert i < |u| ==> Sorted(bs)[i] in u;
      assert |u| <= i ==> Sorted(bs)[i] in t;
    } else {
      assert Sorted(bs)[j] in o;
    }
  }

  /** Users come before teams, and both before organisations. */
  lemma SortedGroups(bs: seq<Budget>, i: nat, j: nat)
    requires i < j < |Sorted(bs)|
    ensures Sorted(bs)[j].entity == User ==> Sorted(bs)[i].entity == User
    ensures Sorted(bs)[i].entity == Org ==> Sorted(bs)[j].entity == Org
  {
    SortedLevels(bs, i, j);
  }

  lemma {:induction false} OfTypeKeepsOrder(bs: seq<Budget>, t: EntityType, i: nat, j: nat) returns (p: nat, q: nat)
    requires i < j < |bs| && bs[i].entity == t && bs[j].entity == t
    ensures p < q < |OfType(bs, t)| && OfType(bs, t)[p] == bs[i] && OfType(bs, t)[q] == bs[j]
  {
    var init := bs[..|bs| - 1];
    if j < |init| {
      p, q := OfTypeKeepsOrder(init, t, i, j);
    } else {
      OfTypeCounts(init, t, bs[i]);
      assert init[i] in multiset(init);
      assert bs[i] in multiset(OfType(init, t));
      p :| 0 <= p < |OfType(init, t)| && OfType(init, t)[p] == bs[i];
      q := |OfType(init, t)|;
    }
  }

  /** Within its group every row keeps its place relative to the others. */
  lemma SortedIsStable(bs: seq<Budget>, i: nat, j: nat) returns (p: nat, q: nat)
    requires i < j < |bs| && bs[i].entity == bs[j].entity
    ensures p < q < |Sorted(bs)| && Sorted(bs)[p] == bs[i] && Sorted(bs)[q] == bs[j]
  {
    var u, t := OfType(bs, User), OfType(bs, Team);
    p, q := OfTypeKeepsOrder(bs, bs[i].entity, i, j);
    var before := match bs[i].entity case User => 0 case Team => |u| case Org => |u| + |t|;
    p, q := p + before, q + before;
  }

  lemma {:induction false} OfTypeDistinct(bs: seq<Budget>, t: EntityType)
    requires Distinct(Ids(bs))
    ensures Distinct(Ids(OfType(bs, t)))
  {
    if bs != [] {
      var init := bs[..|bs| - 1];
      assert forall i :: 0 <= i < |init| ==> Ids(bs)[i] == Ids(init)[i];
      OfTypeDistinct(init, t);
      OfTypeUniform(init, t);
      forall i | 0 <= i < |OfType(init, t)|
        ensures OfType(init, t)[i].id != bs[|bs| - 1].id
      {
        assert OfType(init, t)[i] in init;
        var k :| 0 <= k < |init| && init[k] == OfType(init, t)[i];
        assert Ids(bs)[k] != Ids(bs)[|bs| - 1];
      }
    }
  }

  /** Groups of different levels share no id. */
  lemma GroupsApart(bs: seq<Budget>, s: EntityType, t: EntityType)
    requires Distinct(Ids(bs)) && s != t
    ensures forall i :: i in Ids(OfType(bs, s)) ==> i !in Ids(OfType(bs, t))
  {
    OfTypeUniform(bs, s);
    OfTypeUniform(bs, t);
    SameIdSameRow(bs);
    forall i | i in Ids(OfType(bs, s)) && i in Ids(OfType(bs, t))
      ensures false
    {
      InIds(OfType(bs, s), i);
      InIds(OfType(bs, t), i);
    }
  }

  lemma DistinctConcat(xs: seq<Id>, ys: seq<Id>)
    requires Distinct(xs) && Distinct(ys) && forall x :: x in xs ==> x !in ys
    ensures Distinct(xs + ys)
  {
    forall i, j | 0 <= i < |xs| && 0 <= j < |ys|
      ensures xs[i] != ys[j]
    {
      assert xs[i] in xs && ys[j] in ys;
    }
  }

  lemma SortedDistinct(bs: seq<Budget>)
    requires Distinct(Ids(bs))
    ensures Distinct(Ids(Sorted(bs)))
    ensures forall i :: i in Ids(Sorted(bs)) <==> i in Ids(bs)
  {
    var u, t, o := Ids(OfType(bs, User)), Ids(OfType(bs, Team)), Ids(OfType(bs, Org));
    OfTypeDistinct(bs, User);
    OfTypeDistinct(bs, Team);
    OfTypeDistinct(bs, Org);
    GroupsApart(bs, User, Team);
    GroupsApart(bs, User, Org);
    GroupsApart(bs, Team, Org);
    DistinctConcat(u, t);
    DistinctConcat(u + t, o);
    assert Ids(Sorted(bs)) == u + t + o;
    SortedIsPermutation(bs);
    forall i
      ensures i in Ids(Sorted(bs)) <==> i in Ids(bs)
    {
      InIds(Sorted(bs), i);
      InIds(bs, i);
    }
  }

  lemma InIds(bs: seq<Budget>, i: Id)
    ensures i in Ids(bs) <==> exists b :: b in bs && b.id == i
  {
    if i in Ids(bs) {
      var k :| 0 <= k < |bs| && Ids(bs)[k] == i;
      assert bs[k] in bs;
    }
    if b :| b in bs && b.id == i {
      var k :| 0 <= k < |bs| && bs[k] == b;
      assert Ids(bs)[k] == i;
    }
  }

  lemma SameIdSameRow(bs: seq<Budget>)
    requires Distinct(Ids(bs))
    ensures forall x, y :: x in bs && y in bs && x.id == y.id ==> x == y
  {
    forall x, y | x in bs && y in bs && x.id == y.id
      ensures x == y
    {
      var i :| 0 <= i < |bs| && bs[i] == x;
      var j :| 0 <= j < |bs| && bs[j] == y;
      assert Ids(bs)[i] == Ids(bs)[j];
    }
  }

  /** Rows already in level order are processed in the order they come. */
  lemma {:induction false} SortedKeepsOrdered(bs: seq<Budget>)
    requires forall i, j :: 0 <= i < j < |bs| ==> Level(bs[i].entity) <= Level(bs[j].entity)
    ensures Sorted(bs) == bs
  {
    if bs != [] {
      var init, b := bs[..|bs| - 1], bs[|bs| - 1];
      SortedKeepsOrdered(init);
      if b.entity != Org {
        NoneAbove(init, b, Org);
      }
      if b.entity == User {
        NoneAbove(init, b, Team);
      }
      SortedSnoc(init, b);
      assert bs == init + [b];
    }
  }

  /** A row at the highest level so far comes last. */
  lemma SortedSnoc(bs: seq<Budget>, b: Budget)
    requires b.entity != Org ==> OfType(bs, Org) == []
    requires b.entity == User ==> OfType(bs, Team) == []
    ensures Sorted(bs + [b]) == Sorted(bs) + [b]
  {
    var u, t, o := OfType(bs, User), OfType(bs, Team), OfType(bs, Org);
    OfTypeSnoc(bs, b, User);
    OfTypeSnoc(bs, b, Team);
    OfTypeSnoc(bs, b, Org);
    match b.entity
    case User => AppendPast(u, [], [], b);
    case Team => AppendPast(u, t, [], b);
    case Org => AppendPast(u, t, o, b);
  }

  lemma AppendPast(u: seq<Budget>, t: seq<Budget>, o: seq<Budget>, b: Budget)
    ensures u + t + (o + [b]) == u + t + o + [b]
    ensures o == [] ==> u + (t + [b]) + o == u + t + o + [b]
    ensures t == [] && o == [] ==> u + [b] + t + o == u + t + o + [b]
  {
  }

  lemma OfTypeSnoc(bs: seq<Budget>, b: Budget, t: EntityType)
    ensures OfType(bs + [b], t) == if b.entity == t then OfType(bs, t) + [b] else OfType(bs, t)
  {
    assert (bs + [b])[..|bs|] == bs;
  }

  lemma {:induction false} NoneAbove(bs: seq<Budget>, b: Budget, t: EntityType)
    requires forall i :: 0 <= i < |bs| ==> Level(bs[i].entity) <= Level(b.entity)
    requires Level(b.entity) < Level(t)
    ensures OfType(bs, t) == []
  {
    if bs != [] {
      NoneAbove(bs[..|bs| - 1], b, t);
    }
  }

  // ----- Ancestor chains ---------------------------------------------------

  /** A budget and its ancestors, nearest first. `open` holds the rows not yet visited. */
  function ChainIn(rows: map<Id, Budget>, id: Id, open: set<Id>): (chain: seq<Id>)
    ensures forall i :: 0 <= i < |chain| ==> chain[i] in rows && chain[i] in open
    decreases open
  {
    if id !in rows || id !in open then []
    else
      match rows[id].config.parent
      case None => [id]
      case Some(p) => [id] + ChainIn(rows, p, open - {id})
  }

  function Chain(rows: map<Id, Budget>, id: Id): (chain: seq<Id>)
    ensures forall i :: 0 <= i < |chain| ==> chain[i] in rows
  {
    ChainIn(rows, id, rows.Keys)
  }

  /** The rows a settlement visits, in the order it visits them. */
  function Path(rows: map<Id, Budget>, id: Id): seq<Budget> {
    Sorted(RowsOf(rows, Chain(rows, id)))
  }

  /** No cycles: every parent exists and has a smaller rank than its children. */
  ghost predicate Ranked(rows: map<Id, Budget>, rank: map<Id, nat>) {
    rows.Keys <= rank.Keys && forall i {:trigger RankedAt(rows, rank, i)} :: RankedAt(rows, rank, i)
  }

  /** Stated row by row, so that a proof follows parent links only where it asks for them. */
  ghost predicate RankedAt(rows: map<Id, Budget>, rank: map<Id, nat>, i: Id) {
    i in rows && rows[i].config.parent.Some? ==>
      var p := rows[i].config.parent.value;
      p in rows && p in rank && i in rank && rank[p] < rank[i]
  }

  lemma RankedShape(rows: map<Id, Budget>, other: map<Id, Budget>, rank: map<Id, nat>)
    requires Ranked(rows, rank) && SameShape(rows, other)
    ensures Ranked(other, rank)
  {
    forall i
      ensures RankedAt(other, rank, i)
    {
      assert RankedAt(rows, rank, i);
    }
  }

  lemma {:induction false} ChainDistinct(rows: map<Id, Budget>, id: Id, open: set<Id>)
    ensures Distinct(ChainIn(rows, id, open))
    decreases open
  {
    if id in rows && id in open && rows[id].config.parent.Some? {
      ChainDistinct(rows, rows[id].config.parent.value, open - {id});
      assert id !in ChainIn(rows, rows[id].config.parent.value, open - {id});
    }
  }

  lemma {:induction false} ChainShape(rows: map<Id, Budget>, other: map<Id, Budget>, id: Id, open: set<Id>)
    requires SameShape(rows, other)
    ensures ChainIn(rows, id, open) == ChainIn(other, id, open)
    decreases open
  {
    if id in rows && id in open && rows[id].config.parent.Some? {
      ChainShape(rows, other, rows[id].config.parent.value, open - {id});
    }
  }

  lemma {:induction false} ChainOpen(rows: map<Id, Budget>, rank: map<Id, nat>, id: Id, a: set<Id>, b: set<Id>)
    requires Ranked(rows, rank) && id in rows
    requires forall i :: i in rows && rank[i] <= rank[id] ==> i in a && i in b
    ensures ChainIn(rows, id, a) == ChainIn(rows, id, b)
    decreases rank[id]
  {
    assert RankedAt(rows, rank, id);
    if rows[id].config.parent.Some? {
      ChainOpen(rows, rank, rows[id].config.parent.value, a - {id}, b - {id});
    }
  }

  lemma ChainUnfold(rows: map<Id, Budget>, rank: map<Id, nat>, id: Id)
    requires Ranked(rows, rank) && id in rows
    ensures Chain(rows, id) ==
            match rows[id].config.parent
            case None => [id]
            case Some(p) => [id] + Chain(rows, p)
  {
    assert RankedAt(rows, rank, id);
    if rows[id].config.parent.Some? {
      ChainOpen(rows, rank, rows[id].config.parent.value, rows.Keys - {id}, rows.Keys);
    }
  }

  /** In a forest every chain ends at a root. */
  lemma {:induction false} ChainReachesRoot(rows: map<Id, Budget>, rank: map<Id, nat>, id: Id)
    requires Ranked(rows, rank) && id in rows
    ensures var c := Chain(rows, id); c != [] && c[0] == id && rows[c[|c| - 1]].IsRoot()
    decreases rank[id]
  {
    assert RankedAt(rows, rank, id);
    ChainUnfold(rows, rank, id);
    if rows[id].config.parent.Some? {
      ChainReachesRoot(rows, rank, rows[id].config.parent.value);
    }
  }

  /** What every settlement relies on: its path lists each chain row exactly once. */
  lemma PathRows(rows: map<Id, Budget>, id: Id)
    requires Keyed(rows)
    ensures Distinct(Ids(Path(rows, id)))
    ensures forall i :: i in Ids(Path(rows, id)) <==> i in Chain(rows, id)
    ensures forall b :: b in Path(rows, id) ==> b.id in rows && rows[b.id] == b
  {
    var c := Chain(rows, id);
    ChainDistinct(rows, id, rows.Keys);
    IdsOfRows(rows, c);
    SortedDistinct(RowsOf(rows, c));
    SortedIsPermutation(RowsOf(rows, c));
  }
}
