/**
  A cleanup is several statements: it sums the expired reservations, deletes them, and then
  releases budget by budget. Here: what a settlement that runs after the sum does to it.
 */
module SweepRace {
  import opened Model
  import opened Hierarchy
  import opened BucketFill
  import opened Database
  import opened PendingUsage

  lemma {:induction false} TakenOfKept(holds: seq<Hold>, p: Pick, q: Pick, b: Id)
    ensures Reserved(Taken(Kept(holds, p), q), b) + Reserved(Taken(Taken(holds, p), q), b) ==
              Reserved(Taken(holds, q), b)
  {
    if holds != [] {
      var init, h := holds[..|holds| - 1], holds[|holds| - 1];
      TakenOfKept(init, p, q, b);
      if Picks(p, h) {
        assert Kept(init, p) + [] == Kept(init, p);
        assert (Taken(init, p) + [h])[..|Taken(init, p)|] == Taken(init, p);
      } else {
        assert Taken(init, p) + [] == Taken(init, p);
        assert (Kept(init, p) + [h])[..|Kept(init, p)|] == Kept(init, p);
      }
      TakenLast(Taken(init, q), h, q, b);
      TakenLast(if Picks(p, h) then Taken(Taken(init, p), q) else Taken(Kept(init, p), q), h, q, b);
    }
  }

  /** How a sweep moves the gap: by what it deletes minus what it releases. */
  lemma SweepEffect(read: Db, before: nat, db: Db, now: nat, b: Id)
    requires Valid(read) && Valid(db) && b in db.rows && 0.0 <= db.rows[b].pending
    ensures var summed, deleted := Reserved(Taken(read.holds, ExpiredBy(before)), b),
              Reserved(Taken(db.holds, ExpiredBy(now)), b);
            var after := Sweep(db, Totals(Taken(read.holds, ExpiredBy(before))), now);
            && 0.0 <= summed && b in after.rows
            && Gap(after, b) == Release(db.rows[b].pending, summed) - Reserved(db.holds, b) + deleted
  {
    var expired := Taken(read.holds, ExpiredBy(before));
    ReservedSplit(db.holds, ExpiredBy(now), b);
    FilterFacts(read.holds, ExpiredBy(before));
    ReservedNonNegative(expired, b);
    if b !in Budgets(expired) {
      ReservedAbsent(expired, b);
    }
  }

  /** What a request holds on its first budget is swept as a whole or not at all. */
  lemma ExpiredPartOfRequest(db: Db, h: Hold, now: nat)
    requires Valid(db) && h in db.holds
    ensures Reserved(Taken(Taken(db.holds, OfRequest(h.request)), ExpiredBy(now)), h.budget) ==
              if h.expires <= now then h.estimate else 0.0
  {
    var own := Taken(db.holds, OfRequest(h.request));
    FilterFacts(db.holds, OfRequest(h.request));
    HeldForIs(db.holds, h);
    forall g | g in own && g.budget == h.budget
      ensures g == h
    {
      var i :| 0 <= i < |db.holds| && db.holds[i] == g;
      var j :| 0 <= j < |db.holds| && db.holds[j] == h;
    }
    TakenAllOrNone(own, ExpiredBy(now), h.budget, h.expires <= now);
  }

  /** A settlement takes its own expired reservation away from a later sweep. */
  lemma SettledBeforeSweep(db: Db, r: RequestId, cost: real, t: nat, now: nat)
    requires Valid(db) && FirstHold(db.holds, r).Some?
    ensures var h, mid := FirstHold(db.holds, r).value, Settle(db, r, cost, t);
            && h.budget in db.rows && h.budget in mid.rows && Valid(mid) && 0.0 <= h.estimate
            && mid.rows[h.budget].pending == Release(db.rows[h.budget].pending, h.estimate)
            && Reserved(mid.holds, h.budget) == Reserved(db.holds, h.budget) - h.estimate
            && Reserved(Taken(mid.holds, ExpiredBy(now)), h.budget) ==
                 Reserved(Taken(db.holds, ExpiredBy(now)), h.budget) - if h.expires <= now then h.estimate else 0.0
  {
    var h := FirstHold(db.holds, r).value;
    SnapshotFacts(db, r);
    CommitKeepsValid(db, Snapshot(h, Path(db.rows, h.budget)), cost, t);
    SettleEffect(db, r, cost, t, h.budget);
    TakenOfKept(db.holds, OfRequest(r), ExpiredBy(now), h.budget);
    ExpiredPartOfRequest(db, h, now);
  }

  lemma LiveNonNegative(db: Db, now: nat, b: Id)
    requires Valid(db)
    ensures var live := Reserved(Kept(db.holds, ExpiredBy(now)), b);
            0.0 <= live && live == Reserved(db.holds, b) - Reserved(Taken(db.holds, ExpiredBy(now)), b)
    ensures 0.0 <= Reserved(Taken(db.holds, ExpiredBy(now)), b)
  {
    FilterFacts(db.holds, ExpiredBy(now));
    ReservedSplit(db.holds, ExpiredBy(now), b);
    ReservedNonNegative(Kept(db.holds, ExpiredBy(now)), b);
    ReservedNonNegative(Taken(db.holds, ExpiredBy(now)), b);
  }

  /**
    A settlement between a cleanup's sum and its delete releases its estimate twice, if its
    reservation had expired: starting from exact accounting, pending then falls short of the
    remaining reservations by the estimate, or by all of them when they are fewer.
   */
  lemma SettleDuringCleanup(db: Db, r: RequestId, cost: real, t: nat, now: nat)
    requires Valid(db) && FirstHold(db.holds, r).Some?
    requires FirstHold(db.holds, r).value.budget in db.rows && Gap(db, FirstHold(db.holds, r).value.budget) == 0.0
    ensures var h := FirstHold(db.holds, r).value;
            var after := Sweep(Settle(db, r, cost, t), Totals(Taken(db.holds, ExpiredBy(now))), now);
            var live := Reserved(Kept(db.holds, ExpiredBy(now)), h.budget);
            && h.budget in after.rows
            && Gap(after, h.budget) ==
                 if now < h.expires then 0.0
                 else if h.estimate <= live then -h.estimate
                 else -live
  {
    SettledBeforeSweep(db, r, cost, t, now);
    SweptAfter(db, Settle(db, r, cost, t), FirstHold(db.holds, r).value, now);
  }

  lemma SweptAfter(db: Db, mid: Db, h: Hold, now: nat)
    requires Valid(db) && Valid(mid) && h.budget in db.rows && h.budget in mid.rows
    requires Gap(db, h.budget) == 0.0 && 0.0 <= h.estimate
    requires mid.rows[h.budget].pending == Release(db.rows[h.budget].pending, h.estimate)
    requires Reserved(mid.holds, h.budget) == Reserved(db.holds, h.budget) - h.estimate
    requires Reserved(Taken(mid.holds, ExpiredBy(now)), h.budget) ==
               Reserved(Taken(db.holds, ExpiredBy(now)), h.budget) - if h.expires <= now then h.estimate else 0.0
    ensures var after, live := Sweep(mid, Totals(Taken(db.holds, ExpiredBy(now))), now),
              Reserved(Kept(db.holds, ExpiredBy(now)), h.budget);
            && h.budget in after.rows
            && Gap(after, h.budget) ==
                 if now < h.expires then 0.0
                 else if h.estimate <= live then -h.estimate
                 else -live
  {
    SweepEffect(db, now, mid, now, h.budget);
    LiveNonNegative(db, now, h.budget);
    LiveNonNegative(mid, now, h.budget);
    ReleasedTwice(Reserved(db.holds, h.budget), h.estimate, Reserved(Taken(db.holds, ExpiredBy(now)), h.budget),
      h.expires <= now);
  }

  lemma ReleasedTwice(reserved: real, estimate: real, summed: real, twice: bool)
    requires 0.0 <= estimate && 0.0 <= summed <= reserved
    requires if twice then estimate <= summed else summed + estimate <= reserved
    ensures Release(Release(reserved, estimate), summed) - (reserved - estimate)
              + (summed - if twice then estimate else 0.0) ==
              if !twice then 0.0 else if estimate <= reserved - summed then -estimate else summed - reserved
  {
  }
}
