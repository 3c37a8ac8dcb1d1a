/**
  Where the money of a run goes. Summed over the non-isolated budgets, usage grows by
  exactly the actual costs of the settled requests, in every interleaving of reads and
  commits, as long as roots are not isolated.
 */
module Conservation {
  import opened Model
  import opened Hierarchy
  import opened BucketFill
  import opened Database
  import opened Interleaving

  function TotalUsage(rows: map<Id, Budget>, all: seq<Id>): real
    requires forall i :: i in all ==> i in rows
  {
    if all == [] then 0.0
    else
      assert all[|all| - 1] in all;
      TotalUsage(rows, all[..|all| - 1]) + rows[all[|all| - 1]].usage
  }

  function TotalCharges(path: seq<Budget>, cost: real, all: seq<Id>): real {
    if all == [] then 0.0
    else TotalCharges(path, cost, all[..|all| - 1]) + ChargeFor(path, cost, all[|all| - 1])
  }

  lemma {:induction false} TotalChargesSnoc(path: seq<Budget>, cost: real, all: seq<Id>)
    requires path != [] && Distinct(all)
    ensures var init, b := path[..|path| - 1], path[|path| - 1];
            TotalCharges(path, cost, all) ==
              TotalCharges(init, cost, all) + if b.id in all then Charge(b, Remainder(init, cost)) else 0.0
  {
    if all != [] {
      var front, i := all[..|all| - 1], all[|all| - 1];
      TotalChargesSnoc(path, cost, front);
      assert all == front + [i];
      assert i !in front;
    }
  }

  /** Summed over the non-isolated budgets, a path charges exactly what it places. */
  lemma {:induction false} ChargesAddUp(path: seq<Budget>, cost: real, all: seq<Id>)
    requires Distinct(all)
    requires forall i :: 0 <= i < |path| ==> (path[i].id in all <==> !path[i].config.isolated)
    ensures TotalCharges(path, cost, all) == Placed(path, cost)
  {
    if path != [] {
      ChargesAddUp(path[..|path| - 1], cost, all);
      TotalChargesSnoc(path, cost, all);
    } else {
      NoChargesWithoutPath(cost, all);
    }
  }

  lemma {:induction false} NoChargesWithoutPath(cost: real, all: seq<Id>)
    ensures TotalCharges([], cost, all) == 0.0
  {
    if all != [] {
      NoChargesWithoutPath(cost, all[..|all| - 1]);
    }
  }

  lemma {:induction false} CommitTotal(db: Db, s: Snapshot, cost: real, now: nat, all: seq<Id>)
    requires Keyed(db.rows) && forall i :: i in all ==> i in db.rows
    ensures TotalUsage(Commit(db, s, cost, now).rows, all) == TotalUsage(db.rows, all) + TotalCharges(s.path, cost, all)
  {
    if all != [] {
      assert all[|all| - 1] in all;
      CommitTotal(db, s, cost, now, all[..|all| - 1]);
    }
  }

  lemma {:induction false} SameUsageSameTotal(rows: map<Id, Budget>, other: map<Id, Budget>, all: seq<Id>)
    requires forall i :: i in all ==> i in rows && i in other && rows[i].usage == other[i].usage
    ensures TotalUsage(rows, all) == TotalUsage(other, all)
  {
    if all != [] {
      assert all[|all| - 1] in all;
      SameUsageSameTotal(rows, other, all[..|all| - 1]);
    }
  }

  /** The non-isolated budgets of a table. */
  ghost predicate IsOpenPart(rows: map<Id, Budget>, all: seq<Id>) {
    Distinct(all) && forall i :: i in all <==> i in rows && !rows[i].config.isolated
  }

  /** The path lists budgets of the table, each with its current configuration. */
  ghost predicate Lists(rows: map<Id, Budget>, path: seq<Budget>) {
    forall i :: 0 <= i < |path| ==> path[i].id in rows && path[i].config == rows[path[i].id].config
  }

  lemma PathLists(db: Db, at: Db, s: Snapshot)
    requires Valid(db) && SameShape(db.rows, at.rows) && PathRead(db, s)
    ensures Lists(at.rows, s.path)
  {
    PathRows(db.rows, s.first.budget);
    forall i | 0 <= i < |s.path|
      ensures s.path[i].id in at.rows && s.path[i].config == at.rows[s.path[i].id].config
    {
      assert s.path[i] in s.path;
    }
  }

  /** One commit, however stale its path: the non-isolated budgets gain what the path places. */
  lemma CommitPlaces(db: Db, s: Snapshot, cost: real, now: nat, all: seq<Id>)
    requires Valid(db) && IsOpenPart(db.rows, all) && Lists(db.rows, s.path)
    ensures TotalUsage(Commit(db, s, cost, now).rows, all) == TotalUsage(db.rows, all) + cost - Remainder(s.path, cost)
  {
    CommitTotal(db, s, cost, now, all);
    ChargesAddUp(s.path, cost, all);
    Conservation(s.path, cost);
  }

  // ----- Runs --------------------------------------------------------------

  /** What an event spends: the actual cost if it settles something. */
  ghost function SpentBy(db: Db, e: Event): real {
    if !Legal(db, e) then 0.0
    else
      match e
      case DoSettle(r, cost, _) => if FirstHold(db.holds, r).Some? then cost else 0.0
      case DoCommit(_, cost, _) => cost
      case _ => 0.0
  }

  /** The part of it that no non-isolated budget takes. */
  ghost function UnplacedBy(db: Db, e: Event): real {
    if !Legal(db, e) then 0.0
    else
      match e
      case DoSettle(r, cost, _) =>
        (match FirstHold(db.holds, r)
         case None => 0.0
         case Some(h) => Remainder(Path(db.rows, h.budget), cost))
      case DoCommit(s, cost, _) => Remainder(s.path, cost)
      case _ => 0.0
  }

  ghost function Spent(db: Db, es: seq<Event>): real {
    if es == [] then 0.0
    else Spent(db, es[..|es| - 1]) + SpentBy(Run(db, es[..|es| - 1]), es[|es| - 1])
  }

  ghost function Unplaced(db: Db, es: seq<Event>): real {
    if es == [] then 0.0
    else Unplaced(db, es[..|es| - 1]) + UnplacedBy(Run(db, es[..|es| - 1]), es[|es| - 1])
  }

  lemma StepConserves(db: Db, e: Event, all: seq<Id>)
    requires Valid(db) && IsOpenPart(db.rows, all) && !e.DoReset?
    requires e.DoCommit? && Legal(db, e) ==> Lists(db.rows, e.snapshot.path)
    ensures forall i :: i in all ==> i in Step(db, e).rows
    ensures TotalUsage(Step(db, e).rows, all) == TotalUsage(db.rows, all) + SpentBy(db, e) - UnplacedBy(db, e)
  {
    StepKeepsValid(db, e);
    if Legal(db, e) {
      match e
      case DoReserve(_, _, _, _) => SameUsageSameTotal(db.rows, Step(db, e).rows, all);
      case DoCleanup(_) => SameUsageSameTotal(db.rows, Step(db, e).rows, all);
      case DoCommit(s, cost, now) => CommitPlaces(db, s, cost, now, all);
      case DoSettle(r, cost, now) =>
        if FirstHold(db.holds, r).Some? {
          var h := FirstHold(db.holds, r).value;
          var s := Snapshot(h, Path(db.rows, h.budget));
          PathLists(db, db, s);
          CommitPlaces(db, s, cost, now, all);
        }
    }
  }

  /**
    Every dollar is accounted for, in every interleaving of a period and on any table:
    the usage of the non-isolated budgets grows by the actual costs of the settled
    requests less what ran out at the top of a chain.
   */
  lemma {:induction false} UsageAccounted(db: Db, es: seq<Event>, all: seq<Id>)
    requires Valid(db) && IsOpenPart(db.rows, all) && WithinPeriod(es) && SnapshotsRead(db, es)
    ensures forall i :: i in all ==> i in Run(db, es).rows
    ensures TotalUsage(Run(db, es).rows, all) == TotalUsage(db.rows, all) + Spent(db, es) - Unplaced(db, es)
  {
    if es != [] {
      var init, e := es[..|es| - 1], es[|es| - 1];
      UsageAccounted(db, init, all);
      RunKeepsValid(db, init);
      if e.DoCommit? {
        CommittedPathLists(db, es);
      }
      StepConserves(Run(db, init), e, all);
    }
  }

  lemma CommittedPathLists(db: Db, es: seq<Event>)
    requires Valid(db) && SnapshotsRead(db, es) && es != [] && es[|es| - 1].DoCommit?
    ensures Lists(Run(db, es[..|es| - 1]).rows, es[|es| - 1].snapshot.path)
  {
    var init, s := es[..|es| - 1], es[|es| - 1].snapshot;
    var j, k :| 0 <= j <= k <= |init| && ReadAt(db, init, j, k, s);
    RunKeepsValid(db, init[..k]);
    RunKeepsValid(db, init);
    PathLists(Run(db, init[..k]), Run(db, init), s);
  }

  // ----- When nothing runs out ---------------------------------------------

  ghost predicate RootsOpen(rows: map<Id, Budget>) {
    forall i :: i in rows && rows[i].IsRoot() ==> !rows[i].config.isolated
  }

  /** A chain of a forest with non-isolated roots places the whole cost, whatever the usages were. */
  lemma PathPlacesAll(db: Db, rank: map<Id, nat>, s: Snapshot, cost: real)
    requires Valid(db) && Ranked(db.rows, rank) && RootsOpen(db.rows) && PathRead(db, s)
    requires s.first.budget in db.rows && 0.0 <= cost
    ensures Remainder(s.path, cost) == 0.0
  {
    var k := RootOnPath(db, rank, s);
    RootTakesRest(s.path, cost, k);
  }

  lemma RootOnPath(db: Db, rank: map<Id, nat>, s: Snapshot) returns (k: nat)
    requires Valid(db) && Ranked(db.rows, rank) && PathRead(db, s) && s.first.budget in db.rows
    ensures k < |s.path| && s.path[k].IsRoot() && s.path[k].id in db.rows && db.rows[s.path[k].id] == s.path[k]
  {
    var chain := Chain(db.rows, s.first.budget);
    PathRows(db.rows, s.first.budget);
    ChainReachesRoot(db.rows, rank, s.first.budget);
    assert chain[|chain| - 1] in Ids(s.path);
    k :| 0 <= k < |s.path| && Ids(s.path)[k] == chain[|chain| - 1];
    assert s.path[k] in s.path;
  }

  lemma CommitUnplaced(db: Db, es: seq<Event>, rank: map<Id, nat>)
    requires Valid(db) && Ranked(db.rows, rank) && RootsOpen(db.rows)
    requires SnapshotsRead(db, es) && es != [] && es[|es| - 1].DoCommit? && 0.0 <= es[|es| - 1].cost
    ensures Remainder(es[|es| - 1].snapshot.path, es[|es| - 1].cost) == 0.0
  {
    var init, e := es[..|es| - 1], es[|es| - 1];
    var j, k :| 0 <= j <= k <= |init| && ReadAt(db, init, j, k, e.snapshot);
    RunKeepsValid(db, init[..j]);
    RunKeepsValid(db, init[..k]);
    RankedShape(db.rows, Run(db, init[..k]).rows, rank);
    assert e.snapshot.first in Run(db, init[..j]).holds;
    PathPlacesAll(Run(db, init[..k]), rank, e.snapshot, e.cost);
  }

  lemma {:induction false} NothingUnplaced(db: Db, es: seq<Event>, rank: map<Id, nat>)
    requires Valid(db) && Ranked(db.rows, rank) && RootsOpen(db.rows) && SnapshotsRead(db, es)
    ensures Unplaced(db, es) == 0.0
  {
    if es != [] {
      var init, e := es[..|es| - 1], es[|es| - 1];
      NothingUnplaced(db, init, rank);
      RunKeepsValid(db, init);
      var at := Run(db, init);
      if Legal(at, e) && e.DoCommit? {
        CommitUnplaced(db, es, rank);
      } else if Legal(at, e) && e.DoSettle? && FirstHold(at.holds, e.request).Some? {
        var h := FirstHold(at.holds, e.request).value;
        RankedShape(db.rows, at.rows, rank);
        PathPlacesAll(at, rank, Snapshot(h, Path(at.rows, h.budget)), e.cost);
      }
    }
  }

  /**
    Money is conserved in every interleaving of a period: on a forest whose roots are not
    isolated, with isolated children anywhere, the usage of the non-isolated budgets grows
    by exactly the actual costs of the settled requests, however stale the reads are.
   */
  lemma UsageConserved(db: Db, es: seq<Event>, rank: map<Id, nat>, all: seq<Id>)
    requires Valid(db) && Ranked(db.rows, rank) && RootsOpen(db.rows) && IsOpenPart(db.rows, all)
    requires WithinPeriod(es) && SnapshotsRead(db, es)
    ensures forall i :: i in all ==> i in Run(db, es).rows
    ensures TotalUsage(Run(db, es).rows, all) == TotalUsage(db.rows, all) + Spent(db, es)
  {
    UsageAccounted(db, es, all);
    NothingUnplaced(db, es, rank);
  }

  /**
    The same for one commit on a chain without isolated budgets, summed over all budgets of
    any forest, after any events since the chain was read.
   */
  lemma OpenChainCommit(db: Db, s: Snapshot, between: seq<Event>, cost: real, now: nat, rank: map<Id, nat>,
                        all: seq<Id>)
    requires Valid(db) && Ranked(db.rows, rank) && PathRead(db, s) && OpenPath(s.path)
    requires s.first.budget in db.rows && 0.0 <= cost
    requires Distinct(all) && forall i :: i in all <==> i in db.rows
    ensures forall i :: i in all ==> i in Run(db, between).rows && i in Commit(Run(db, between), s, cost, now).rows
    ensures TotalUsage(Commit(Run(db, between), s, cost, now).rows, all) ==
              TotalUsage(Run(db, between).rows, all) + cost
  {
    RunKeepsValid(db, between);
    PathLists(db, Run(db, between), s);
    CommitTotal(Run(db, between), s, cost, now, all);
    ChargesAddUp(s.path, cost, all);
    Conservation(s.path, cost);
    var k := RootOnPath(db, rank, s);
    RootTakesRest(s.path, cost, k);
  }
}
