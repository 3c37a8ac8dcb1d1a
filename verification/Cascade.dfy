/**
  Deleting a budget together with everything below it
  (GetAllDescendants, DeleteBudgetCascade and the DeleteBudget handler).
 */
module Cascade {
  import opened Model
  import opened Hierarchy

  /** The target, if it exists, and all rows that have it among their ancestors. */
  function Subtree(rows: map<Id, Budget>, id: Id): set<Id> {
    set d | d in rows && id in Chain(rows, d)
  }

  predicate IsChild(rows: map<Id, Budget>, d: Id, id: Id) {
    d in rows && rows[d].config.parent == Some(id)
  }

  /** Rows exactly k generations below `id`. */
  function Generation(rows: map<Id, Budget>, id: Id, k: nat): set<Id> {
    set d | d in rows && k < |Chain(rows, d)| && Chain(rows, d)[k] == id
  }

  function ChildrenOf(rows: map<Id, Budget>, level: set<Id>): set<Id> {
    set d | d in rows && rows[d].config.parent.Some? && rows[d].config.parent.value in level
  }

  datatype DeleteResult = Deleted(count: nat) | NotFound | HasChildren

  ghost predicate NoDangling(rows: map<Id, Budget>) {
    forall d :: d in rows && rows[d].config.parent.Some? ==> rows[d].config.parent.value in rows
  }

  lemma RankedNoDangling(rows: map<Id, Budget>, rank: map<Id, nat>)
    requires Ranked(rows, rank)
    ensures NoDangling(rows)
  {
    forall d | d in rows && rows[d].config.parent.Some?
      ensures rows[d].config.parent.value in rows
    {
      assert RankedAt(rows, rank, d);
    }
  }

  // ----- Generations -------------------------------------------------------

  lemma NextGeneration(rows: map<Id, Budget>, rank: map<Id, nat>, id: Id, k: nat)
    requires Ranked(rows, rank)
    ensures Generation(rows, id, k + 1) == ChildrenOf(rows, Generation(rows, id, k))
  {
    forall d | d in rows
      ensures rows[d].config.parent.Some? ==> Chain(rows, d)[1..] == Chain(rows, rows[d].config.parent.value)
      ensures rows[d].config.parent.None? ==> |Chain(rows, d)| == 1
    {
      ChainUnfold(rows, rank, d);
    }
  }

  lemma FirstGeneration(rows: map<Id, Budget>, rank: map<Id, nat>, id: Id)
    requires Ranked(rows, rank)
    ensures Generation(rows, id, 1) == set d | d in rows && IsChild(rows, d, id)
  {
    forall d | d in rows
      ensures d in Generation(rows, id, 1) <==> IsChild(rows, d, id)
    {
      ChainUnfold(rows, rank, d);
      assert RankedAt(rows, rank, d);
      if rows[d].config.parent.Some? {
        ChainReachesRoot(rows, rank, rows[d].config.parent.value);
      }
    }
  }

  lemma GenerationsDisjoint(rows: map<Id, Budget>, id: Id, j: nat, k: nat)
    requires j != k
    ensures Generation(rows, id, j) !! Generation(rows, id, k)
  {
    forall d | d in Generation(rows, id, j)
      ensures d !in Generation(rows, id, k)
    {
      ChainDistinct(rows, d, rows.Keys);
    }
  }

  // ----- The recursive query -----------------------------------------------

  method Enumerate(s: set<Id>) returns (ids: seq<Id>)
    ensures Distinct(ids) && |ids| == |s|
    ensures forall i :: i in ids <==> i in s
  {
    ids := [];
    var todo := s;
    while todo != {}
      invariant todo <= s && |ids| + |todo| == |s|
      invariant Distinct(ids)
      invariant forall i :: i in ids <==> i in s && i !in todo
      decreases todo
    {
      var i :| i in todo;
      ids := ids + [i];
      todo := todo - {i};
    }
  }

  /** In the list, every child of a listed row stands before it. */
  ghost predicate ChildrenFirst(rows: map<Id, Budget>, ids: seq<Id>) {
    forall j, d :: 0 <= j < |ids| && IsChild(rows, d, ids[j]) ==> d in ids[..j]
  }

  ghost predicate ChildrenFirstOrIn(rows: map<Id, Budget>, ids: seq<Id>, next: set<Id>) {
    forall j, d :: 0 <= j < |ids| && IsChild(rows, d, ids[j]) ==> d in ids[..j] || d in next
  }

  lemma Prepend(rows: map<Id, Budget>, level: set<Id>, ids: seq<Id>, front: seq<Id>, next: set<Id>)
    requires ChildrenFirstOrIn(rows, ids, level)
    requires forall i :: i in front <==> i in level
    requires next == ChildrenOf(rows, level)
    ensures ChildrenFirstOrIn(rows, front + ids, next)
  {
    var all := front + ids;
    forall j, d | 0 <= j < |all| && IsChild(rows, d, all[j])
      ensures d in all[..j] || d in next
    {
      if j < |front| {
        assert all[j] in front;
      } else {
        assert all[j] == ids[j - |front|];
        assert all[..j] == front + ids[..j - |front|];
      }
    }
  }

  /** Generations 1 to k - 1 are listed, deepest first, and generation k is next. */
  ghost predicate Walked(rows: map<Id, Budget>, id: Id, k: nat, level: set<Id>, ids: seq<Id>) {
    && 1 <= k && level == Generation(rows, id, k)
    && (forall d :: d in ids <==> exists j :: 1 <= j < k && d in Generation(rows, id, j))
    && Distinct(ids) && ChildrenFirstOrIn(rows, ids, level)
    && (forall d :: IsChild(rows, d, id) ==> d in ids || d in level)
  }

  lemma WalkOn(rows: map<Id, Budget>, rank: map<Id, nat>, id: Id, k: nat, level: set<Id>, ids: seq<Id>, front: seq<Id>)
    requires Ranked(rows, rank) && Walked(rows, id, k, level, ids)
    requires Distinct(front) && forall i :: i in front <==> i in level
    ensures Walked(rows, id, k + 1, ChildrenOf(rows, level), front + ids)
  {
    NextGeneration(rows, rank, id, k);
    Prepend(rows, level, ids, front, ChildrenOf(rows, level));
    forall d | d in ids
      ensures d !in level
    {
      var j :| 1 <= j < k && d in Generation(rows, id, j);
      GenerationsDisjoint(rows, id, j, k);
    }
    ListedGenerations(rows, id, k, level, ids, front);
    DistinctConcat(front, ids);
  }

  lemma ListedGenerations(rows: map<Id, Budget>, id: Id, k: nat, level: set<Id>, ids: seq<Id>, front: seq<Id>)
    requires Walked(rows, id, k, level, ids)
    requires forall i :: i in front <==> i in level
    ensures forall d :: d in front + ids <==> exists j :: 1 <= j < k + 1 && d in Generation(rows, id, j)
  {
    forall d | d in front + ids
      ensures exists j :: 1 <= j < k + 1 && d in Generation(rows, id, j)
    {
      if d in front {
        assert d in Generation(rows, id, k);
      }
    }
  }

  lemma {:induction false} ListFits(ids: seq<Id>, s: set<Id>)
    requires Distinct(ids) && forall i :: i in ids ==> i in s
    ensures |ids| <= |s|
  {
    if ids != [] {
      var init, last := ids[..|ids| - 1], ids[|ids| - 1];
      assert ids == init + [last];
      assert last !in init;
      ListFits(init, s - {last});
    }
  }

  /** GetAllDescendants: generation by generation, deepest first. */
  method GetAllDescendants(rows: map<Id, Budget>, id: Id, ghost rank: map<Id, nat>) returns (ids: seq<Id>)
    requires Ranked(rows, rank)
    ensures Distinct(ids) && ChildrenFirst(rows, ids)
    ensures forall d :: IsChild(rows, d, id) ==> d in ids
    ensures forall d :: d in ids <==> d in rows && d != id && id in Chain(rows, d)
  {
    ids := [];
    var level := set d | d in rows && IsChild(rows, d, id);
    FirstGeneration(rows, rank, id);
    ghost var k := 1;
    while level != {}
      invariant Walked(rows, id, k, level, ids)
      invariant |ids| <= |rows|
      decreases |rows| - |ids|
    {
      var front := Enumerate(level);
      WalkOn(rows, rank, id, k, level, ids, front);
      WalkFits(rows, id, k + 1, ChildrenOf(rows, level), front + ids);
      ids, level, k := front + ids, ChildrenOf(rows, level), k + 1;
    }
    WalkDone(rows, rank, id, k, ids);
  }

  lemma WalkFits(rows: map<Id, Budget>, id: Id, k: nat, level: set<Id>, ids: seq<Id>)
    requires Walked(rows, id, k, level, ids)
    ensures |ids| <= |rows|
  {
    ListFits(ids, rows.Keys);
  }

  lemma WalkDone(rows: map<Id, Budget>, rank: map<Id, nat>, id: Id, k: nat, ids: seq<Id>)
    requires Ranked(rows, rank) && Walked(rows, id, k, {}, ids)
    ensures Distinct(ids) && ChildrenFirst(rows, ids)
    ensures forall d :: IsChild(rows, d, id) ==> d in ids
    ensures forall d :: d in ids <==> d in rows && d != id && id in Chain(rows, d)
  {
    NothingBelow(rows, rank, id, k, ids);
  }

  lemma {:induction false} EmptyAbove(rows: map<Id, Budget>, rank: map<Id, nat>, id: Id, k: nat, j: nat)
    requires Ranked(rows, rank) && Generation(rows, id, k) == {} && k <= j
    ensures Generation(rows, id, j) == {}
    decreases j
  {
    if k < j {
      EmptyAbove(rows, rank, id, k, j - 1);
      NextGeneration(rows, rank, id, j - 1);
    }
  }

  lemma NothingBelow(rows: map<Id, Budget>, rank: map<Id, nat>, id: Id, k: nat, ids: seq<Id>)
    requires Ranked(rows, rank) && 1 <= k && Generation(rows, id, k) == {}
    requires forall d :: d in ids <==> exists j :: 1 <= j < k && d in Generation(rows, id, j)
    ensures forall d :: d in ids <==> d in rows && d != id && id in Chain(rows, d)
  {
    forall d
      ensures d in ids <==> d in rows && d != id && id in Chain(rows, d)
    {
      if d in rows {
        ChainReachesRoot(rows, rank, d);
        ChainDistinct(rows, d, rows.Keys);
        if id in Chain(rows, d) {
          var j: nat :| j < |Chain(rows, d)| && Chain(rows, d)[j] == id;
          if k <= j {
            EmptyAbove(rows, rank, id, k, j);
          }
          assert d in Generation(rows, id, j);
        }
      }
    }
  }

  // ----- The deletion ------------------------------------------------------

  function Without(rows: map<Id, Budget>, ids: seq<Id>): map<Id, Budget> {
    map i | i in rows && i !in ids :: rows[i]
  }

  /** DELETE of one row; the foreign key on parent_id refuses it while a child remains. */
  method DeleteRow(rows: map<Id, Budget>, id: Id) returns (txRows: map<Id, Budget>, ok: bool)
    ensures ok <==> !(id in rows && exists d :: d in rows && d != id && IsChild(rows, d, id))
    ensures txRows == if ok then rows - {id} else rows
  {
    ok := !(id in rows && exists d :: d in rows && d != id && IsChild(rows, d, id));
    txRows := if ok then rows - {id} else rows;
  }

  /** Deleting a children-first list never meets a row that still has a child. */
  method DeleteAll(rows: map<Id, Budget>, ids: seq<Id>) returns (tx: map<Id, Budget>, ok: bool)
    requires ChildrenFirst(rows, ids)
    ensures ok && tx == Without(rows, ids)
  {
    tx, ok := rows, true;
    for k := 0 to |ids|
      invariant ok && tx == Without(rows, ids[..k])
    {
      assert forall d :: IsChild(rows, d, ids[k]) ==> d in ids[..k];
      tx, ok := DeleteRow(tx, ids[k]);
      assert ids[..k + 1] == ids[..k] + [ids[k]];
      if !ok {
        return;
      }
    }
    assert ids[..|ids|] == ids;
  }

  lemma DistinctCount(s: seq<Id>, t: set<Id>)
    requires Distinct(s) && forall i :: i in s <==> i in t
    ensures |s| == |t|
  {
    ListFits(s, t);
    SetFits(s, t);
  }

  lemma {:induction false} SetFits(s: seq<Id>, t: set<Id>)
    requires forall i :: i in t ==> i in s
    ensures |t| <= |s|
  {
    if s != [] {
      assert s == s[..|s| - 1] + [s[|s| - 1]];
      SetFits(s[..|s| - 1], t - {s[|s| - 1]});
    }
  }

  class BudgetTable {
    var rows: map<Id, Budget>

    constructor (rows: map<Id, Budget>)
      ensures this.rows == rows
    {
      this.rows := rows;
    }

    /**
      DeleteBudgetCascade on any finite forest: it never meets a foreign-key violation,
      removes exactly the target and its descendants, and counts them.
     */
    method DeleteBudgetCascade(id: Id, ghost rank: map<Id, nat>) returns (r: DeleteResult)
      requires Ranked(rows, rank)
      modifies this
      ensures id !in old(rows) ==> r == NotFound
      ensures id in old(rows) ==> r == Deleted(|Subtree(old(rows), id)|)
      ensures rows == old(rows) - Subtree(old(rows), id)
      ensures NoDangling(rows) && Ranked(rows, rank)
    {
      ghost var before := rows;
      var ids := GetAllDescendants(rows, id, rank);
      var tx, ok := DeleteAll(rows, ids);
      SubtreeIs(before, rank, id, ids);
      SubtreeGone(before, rank, id);
      if id !in tx {
        assert before - Subtree(before, id) == before;
        return NotFound;
      }
      tx, ok := DeleteRow(tx, id);
      assert ok;
      rows := tx;
      assert rows == before - Subtree(before, id);
      r := Deleted(|ids| + 1);
    }

    /** The DeleteBudget handler: children are only removed when cascading is asked for. */
    method DeleteBudget(id: Id, cascade: bool, ghost rank: map<Id, nat>) returns (r: DeleteResult)
      requires Ranked(rows, rank)
      modifies this
      ensures id !in old(rows) ==> r == NotFound
      ensures r == HasChildren <==> id in old(rows) && !cascade && exists d :: IsChild(old(rows), d, id)
      ensures r == NotFound || r == HasChildren ==> rows == old(rows)
      ensures id in old(rows) && r != HasChildren ==>
                r == Deleted(|Subtree(old(rows), id)|) && rows == old(rows) - Subtree(old(rows), id)
      ensures NoDangling(rows)
    {
      RankedNoDangling(rows, rank);
      if id !in rows {
        return NotFound;
      }
      var children := set d | d in rows && IsChild(rows, d, id);
      assert forall d :: d in children <==> IsChild(rows, d, id);
      if children != {} && !cascade {
        return HasChildren;
      }
      if children != {} {
        r := DeleteBudgetCascade(id, rank);
      } else {
        LeafSubtree(rows, rank, id);
        SubtreeGone(rows, rank, id);
        var tx, ok := DeleteRow(rows, id);
        assert ok;
        rows := tx;
        r := Deleted(1);
      }
    }
  }

  lemma SubtreeIs(rows: map<Id, Budget>, rank: map<Id, nat>, id: Id, ids: seq<Id>)
    requires Ranked(rows, rank) && Distinct(ids)
    requires forall d :: d in ids <==> d in rows && d != id && id in Chain(rows, d)
    ensures id !in rows ==> Subtree(rows, id) == {}
    ensures id in rows ==> |Subtree(rows, id)| == |ids| + 1
    ensures forall d :: d in Subtree(rows, id) <==> d in ids || (d == id && id in rows)
  {
    if id in rows {
      ChainReachesRoot(rows, rank, id);
      DistinctCount(ids, Subtree(rows, id) - {id});
    }
  }

  lemma LeafSubtree(rows: map<Id, Budget>, rank: map<Id, nat>, id: Id)
    requires Ranked(rows, rank) && id in rows && forall d :: !IsChild(rows, d, id)
    ensures Subtree(rows, id) == {id}
  {
    FirstGeneration(rows, rank, id);
    NothingBelow(rows, rank, id, 1, []);
    ChainReachesRoot(rows, rank, id);
  }

  lemma SubtreeGone(rows: map<Id, Budget>, rank: map<Id, nat>, id: Id)
    requires Ranked(rows, rank)
    ensures Ranked(rows - Subtree(rows, id), rank) && NoDangling(rows - Subtree(rows, id))
  {
    forall d | d in rows && rows[d].config.parent.Some? && rows[d].config.parent.value in Subtree(rows, id)
      ensures d in Subtree(rows, id)
    {
      ChainUnfold(rows, rank, d);
    }
    var left := rows - Subtree(rows, id);
    forall d
      ensures RankedAt(left, rank, d)
    {
      assert RankedAt(rows, rank, d);
    }
    RankedNoDangling(left, rank);
  }
}
