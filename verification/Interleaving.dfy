/**
  Settlements as they really run: the reservation and the ancestor chain are read
  before the transaction begins, so other transactions may commit in between
  (internal/budget/service.go:610-637). DoCommit events carry what was read.
 */
module Interleaving {
  import opened Model
  import opened Hierarchy
  import opened BucketFill
  import opened Database
  import opened PendingUsage

  /** In this state the reservation query of DecrementBudgets answers `s.first`. */
  ghost predicate FirstRead(db: Db, s: Snapshot) {
    FirstHold(db.holds, s.first.request) == Some(s.first)
  }

  /** In this state the ancestor query of DecrementBudgets answers `s.path`. */
  ghost predicate PathRead(db: Db, s: Snapshot) {
    s.path == Path(db.rows, s.first.budget)
  }

  /** The reservation was read after j events and the chain after k. */
  ghost predicate ReadAt(db: Db, es: seq<Event>, j: nat, k: nat, s: Snapshot)
    requires j <= k <= |es|
  {
    FirstRead(Run(db, es[..j]), s) && PathRead(Run(db, es[..k]), s)
  }

  /** Every commit uses a reservation and then a chain read at earlier points of the run. */
  ghost predicate SnapshotsRead(db: Db, es: seq<Event>) {
    es != [] ==>
      var init, e := es[..|es| - 1], es[|es| - 1];
      && SnapshotsRead(db, init)
      && (e.DoCommit? ==> exists j, k :: 0 <= j <= k <= |init| && ReadAt(db, init, j, k, e.snapshot))
  }

  // ----- How far a stale settlement can overshoot --------------------------

  ghost function ChargedBy(db: Db, e: Event, b: Id): real {
    if !Legal(db, e) then 0.0
    else
      match e
      case DoSettle(r, cost, _) =>
        (match FirstHold(db.holds, r)
         case None => 0.0
         case Some(h) => ChargeFor(Path(db.rows, h.budget), cost, b))
      case DoCommit(s, cost, _) => ChargeFor(s.path, cost, b)
      case _ => 0.0
  }

  /** What a run commits to budget b. */
  ghost function ChargedTo(db: Db, es: seq<Event>, b: Id): real {
    if es == [] then 0.0
    else ChargedTo(db, es[..|es| - 1], b) + ChargedBy(Run(db, es[..|es| - 1]), es[|es| - 1], b)
  }

  lemma UsageStep(db: Db, e: Event, b: Id)
    requires Valid(db) && b in db.rows && 0.0 <= db.rows[b].usage
    ensures b in Step(db, e).rows && 0.0 <= ChargedBy(db, e, b)
    ensures 0.0 <= Step(db, e).rows[b].usage <= db.rows[b].usage + ChargedBy(db, e, b)
    ensures !e.DoReset? ==> Step(db, e).rows[b].usage == db.rows[b].usage + ChargedBy(db, e, b)
  {
    StepKeepsValid(db, e);
    if Legal(db, e) {
      match e
      case DoReserve(_, _, _, _) =>
      case DoCommit(s, cost, now) => ChargeForBounds(s.path, cost, b);
      case DoSettle(r, cost, now) =>
        if FirstHold(db.holds, r).Some? {
          SnapshotFacts(db, r);
          SettleEffect(db, r, cost, now, b);
          ChargeForBounds(Path(db.rows, FirstHold(db.holds, r).value.budget), cost, b);
        }
      case DoCleanup(_) =>
      case DoReset(_, _) =>
    }
  }

  /** Versions never go down, and no usage figure moves without a new version. */
  lemma UsageChangeBumpsVersion(db: Db, e: Event, b: Id)
    requires Valid(db) && b in db.rows && 0.0 <= db.rows[b].usage
    ensures b in Step(db, e).rows && db.rows[b].version <= Step(db, e).rows[b].version
    ensures Step(db, e).rows[b].usage != db.rows[b].usage ==> db.rows[b].version < Step(db, e).rows[b].version
  {
    UsageStep(db, e, b);
  }

  lemma {:induction false} UsageAfterRun(db: Db, es: seq<Event>, b: Id)
    requires Valid(db) && b in db.rows && 0.0 <= db.rows[b].usage
    ensures b in Run(db, es).rows && 0.0 <= ChargedTo(db, es, b)
    ensures 0.0 <= Run(db, es).rows[b].usage <= db.rows[b].usage + ChargedTo(db, es, b)
    ensures WithinPeriod(es) ==> Run(db, es).rows[b].usage == db.rows[b].usage + ChargedTo(db, es, b)
  {
    if es != [] {
      var init := es[..|es| - 1];
      UsageAfterRun(db, init, b);
      RunKeepsValid(db, init);
      UsageStep(Run(db, init), es[|es| - 1], b);
    }
  }

  /**
    A settlement that charges a non-isolated child leaves it above its amount by at most
    what others committed to it between that settlement's read of the chain and its commit.
   */
  lemma StaleOvershoot(db: Db, s: Snapshot, between: seq<Event>, cost: real, now: nat, b: Id)
    requires Valid(db) && PathRead(db, s) && 0.0 <= cost && b in db.rows
    requires !db.rows[b].config.isolated && db.rows[b].config.parent.Some? && 0.0 <= db.rows[b].usage
    requires ChargeFor(s.path, cost, b) > 0.0
    ensures b in Commit(Run(db, between), s, cost, now).rows
    ensures Commit(Run(db, between), s, cost, now).rows[b].usage <= db.rows[b].config.amount + ChargedTo(db, between, b)
  {
    PathRows(db.rows, s.first.budget);
    UsageAfterRun(db, between, b);
    RunKeepsValid(db, between);
    CommitEffect(Run(db, between), s, cost, now, b);
    if k: nat :| k < |s.path| && s.path[k].id == b {
      assert s.path[k] in s.path;
      ChargeStaysWithinAmount(s.path, cost, k);
    } else {
      ChargeForAbsent(s.path, cost, b);
    }
  }

  // ----- What staleness does to pending ------------------------------------

  /**
    A commit keeps pending above live reservations as long as its own reservation is
    still there. If a cleanup removed it in between, the estimate is released twice.
   */
  lemma StaleReleaseCovers(db: Db, s: Snapshot, cost: real, now: nat)
    requires Valid(db) && s.first in db.holds && 0.0 <= Gap(db, s.first.budget)
    ensures s.first.budget in Commit(db, s, cost, now).rows
    ensures Gap(Commit(db, s, cost, now), s.first.budget) == Gap(db, s.first.budget)
  {
    var h := s.first;
    HeldForIs(db.holds, h);
    CommitEffect(db, s, cost, now, h.budget);
    ReservedSplit(db.holds, OfRequest(h.request), h.budget);
    FilterFacts(db.holds, OfRequest(h.request));
    ReservedNonNegative(Kept(db.holds, OfRequest(h.request)), h.budget);
  }

  /**
    With exact accounting, a commit leaves reservations uncovered iff its own one is gone
    and there is something to lose: the estimate and the pending figure are positive.
   */
  lemma StaleReleaseIff(db: Db, s: Snapshot, cost: real, now: nat)
    requires Valid(db) && s.first.budget in db.rows && Gap(db, s.first.budget) == 0.0
    requires 0.0 <= s.first.estimate
    requires HasHold(db.holds, s.first.request, s.first.budget) ==> s.first in db.holds
    ensures s.first.budget in Commit(db, s, cost, now).rows
    ensures 0.0 <= Gap(Commit(db, s, cost, now), s.first.budget) <==>
              || HasHold(db.holds, s.first.request, s.first.budget)
              || s.first.estimate == 0.0
              || db.rows[s.first.budget].pending == 0.0
  {
    var h := s.first;
    ReservedNonNegative(db.holds, h.budget);
    if HasHold(db.holds, h.request, h.budget) {
      StaleReleaseCovers(db, s, cost, now);
    } else {
      HeldForNone(db.holds, h.request, h.budget);
      CommitEffect(db, s, cost, now, h.budget);
    }
  }

  /**
    Two handlers that read the same reservation and then commit charge the request twice:
    the second delete finds no reservation, which is not an error. Nothing in the
    transaction tells the second commit from the first.
   */
  lemma TwoCommitsChargeTwice(db: Db, s: Snapshot, c1: real, c2: real, t1: nat, t2: nat, b: Id)
    requires Valid(db) && FirstRead(db, s) && PathRead(db, s) && b in db.rows
    ensures var once := Commit(db, s, c1, t1);
            var twice := Commit(once, s, c2, t2);
            && FirstHold(once.holds, s.first.request).None?
            && b in twice.rows
            && twice.rows[b].usage == db.rows[b].usage + ChargeFor(s.path, c1, b) + ChargeFor(s.path, c2, b)
  {
    var once := Commit(db, s, c1, t1);
    CommitKeepsValid(db, s, c1, t1);
    CommitEffect(db, s, c1, t1, b);
    CommitEffect(once, s, c2, t2, b);
    FilterFacts(db.holds, OfRequest(s.first.request));
  }
}
