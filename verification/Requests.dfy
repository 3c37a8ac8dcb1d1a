/**
  The life of one request's reservations: created together, removed together,
  settled at most once.
 */
module Requests {
  import opened Model
  import opened Admission
  import opened Database

  /** A request id is not reused while reservations under it are alive. */
  ghost predicate Fresh(db: Db, e: Event) {
    e.DoReserve? ==> FirstHold(db.holds, e.request).None?
  }

  ghost predicate FreshRun(db: Db, es: seq<Event>) {
    es != [] ==> FreshRun(db, es[..|es| - 1]) && Fresh(Run(db, es[..|es| - 1]), es[|es| - 1])
  }

  /** All reservations of a request carry one estimate and one expiry. */
  ghost predicate Uniform(holds: seq<Hold>) {
    forall g, h :: g in holds && h in holds && g.request == h.request ==>
      g.estimate == h.estimate && g.expires == h.expires
  }

  lemma StepHolds(db: Db, e: Event)
    requires Valid(db)
    ensures !e.DoReserve? ==> forall h :: h in Step(db, e).holds ==> h in db.holds
    ensures e.DoReserve? ==> forall h :: h in Step(db, e).holds ==>
              h in db.holds || (h.request == e.request && h.estimate == e.estimate && h.expires == e.expires
                && h.budget in e.matched)
  {
    match e
    case DoReserve(matched, _, _, _) =>
      if Legal(db, e) {
        MatchedFacts(db, matched);
        var bs := MatchedRows(db, matched);
        var hs := NewHolds(bs, e.request, e.estimate, e.expires);
        forall h | h in hs
          ensures h.budget in matched
        {
          var k :| 0 <= k < |hs| && hs[k] == h;
          assert Ids(bs)[k] in Ids(bs);
        }
      }
    case DoSettle(r, _, _) => FilterFacts(db.holds, OfRequest(r));
    case DoCommit(s, _, _) => FilterFacts(db.holds, OfRequest(s.first.request));
    case DoCleanup(now) => FilterFacts(db.holds, ExpiredBy(now));
    case DoReset(_, _) =>
  }

  lemma {:induction false} HoldsStayUniform(db: Db, es: seq<Event>)
    requires Valid(db) && Uniform(db.holds) && FreshRun(db, es)
    ensures Uniform(Run(db, es).holds)
  {
    if es != [] {
      var init, e := es[..|es| - 1], es[|es| - 1];
      HoldsStayUniform(db, init);
      RunKeepsValid(db, init);
      StepHolds(Run(db, init), e);
    }
  }

  /** The reservations of a request leave the table in one step. */
  lemma HoldsLeaveTogether(db: Db, e: Event, r: RequestId)
    requires Valid(db) && Uniform(db.holds)
    ensures var db' := Step(db, e);
            || (forall h :: h in db.holds && h.request == r ==> h in db'.holds)
            || (forall h :: h in db.holds && h.request == r ==> h !in db'.holds)
  {
    match e
    case DoReserve(_, _, _, _) =>
    case DoSettle(q, _, _) => FilterFacts(db.holds, OfRequest(q));
    case DoCommit(s, _, _) => FilterFacts(db.holds, OfRequest(s.first.request));
    case DoCleanup(now) => FilterFacts(db.holds, ExpiredBy(now));
    case DoReset(_, _) =>
  }

  lemma {:induction false} FirstHoldAppend(holds: seq<Hold>, more: seq<Hold>, r: RequestId)
    requires forall i :: 0 <= i < |more| ==> more[i].request == more[0].request
    ensures FirstHold(holds + more, r) ==
              if FirstHold(holds, r).Some? || more == [] || more[0].request != r
              then FirstHold(holds, r) else Some(more[0])
  {
    var all := holds + more;
    if more == [] {
      assert all == holds;
    } else {
      assert all[..|all| - 1] == holds + more[..|more| - 1];
      FirstHoldAppend(holds, more[..|more| - 1], r);
    }
  }

  lemma {:induction false} FirstHoldKept(holds: seq<Hold>, p: Pick, r: RequestId)
    requires forall h :: h in holds && h.request == r ==> !Picks(p, h)
    ensures FirstHold(Kept(holds, p), r) == FirstHold(holds, r)
  {
    if holds != [] {
      var init, h := holds[..|holds| - 1], holds[|holds| - 1];
      assert h in holds;
      FirstHoldKept(init, p, r);
      if !Picks(p, h) {
        assert (Kept(init, p) + [h])[..|Kept(init, p)|] == Kept(init, p);
      } else {
        assert Kept(init, p) + [] == Kept(init, p);
      }
    }
  }

  /** The reservations of a fresh admitted request: the first is on the first sorted row. */
  lemma FreshReserveHolds(db: Db, matched: seq<Id>, estimate: real, r: RequestId, expires: nat)
    requires Valid(db) && Legal(db, DoReserve(matched, estimate, r, expires))
    requires FirstHold(db.holds, r).None? && matched != [] && Admits(MatchedRows(db, matched), estimate)
    ensures MatchedRows(db, matched) != []
    ensures var bs := MatchedRows(db, matched);
            var db' := Step(db, DoReserve(matched, estimate, r, expires));
            && db' == Reserve(db, bs, estimate, r, expires)
            && db'.holds == db.holds + NewHolds(bs, r, estimate, expires)
            && FirstHold(db'.holds, r) == Some(Hold(bs[0].id, r, estimate, expires))
            && forall b :: b in matched ==> Hold(b, r, estimate, expires) in db'.holds
  {
    var bs := MatchedRows(db, matched);
    MatchedFacts(db, matched);
    var hs := NewHolds(bs, r, estimate, expires);
    FirstHoldAppend(db.holds, hs, r);
    assert !Clashes(db.holds, bs, r);
    forall b | b in matched
      ensures Hold(b, r, estimate, expires) in hs
    {
      assert b in Ids(bs);
      var k :| 0 <= k < |bs| && Ids(bs)[k] == b;
      assert hs[k] in hs;
    }
  }

  // ----- Exactly-once settlement -------------------------------------------

  /** The event makes a reservation for r. */
  ghost predicate AdmitsRequest(db: Db, e: Event, r: RequestId) {
    e.DoReserve? && e.request == r && Step(db, e) != db
  }

  /** The event charges r: it finds a reservation of r, or commits an earlier read of one. */
  ghost predicate SettlesRequest(db: Db, e: Event, r: RequestId) {
    Legal(db, e) &&
    match e
    case DoSettle(q, _, _) => q == r && FirstHold(db.holds, r).Some?
    case DoCommit(s, _, _) => s.first.request == r
    case _ => false
  }

  /** A commit of an earlier read that comes when the reservation is already gone. */
  ghost predicate IsLate(db: Db, e: Event, r: RequestId) {
    e.DoCommit? && SettlesRequest(db, e, r) && FirstHold(db.holds, r).None?
  }

  ghost function Admissions(db: Db, es: seq<Event>, r: RequestId): nat {
    if es == [] then 0
    else
      var init := es[..|es| - 1];
      Admissions(db, init, r) + if AdmitsRequest(Run(db, init), es[|es| - 1], r) then 1 else 0
  }

  ghost function Settlements(db: Db, es: seq<Event>, r: RequestId): nat {
    if es == [] then 0
    else
      var init := es[..|es| - 1];
      Settlements(db, init, r) + if SettlesRequest(Run(db, init), es[|es| - 1], r) then 1 else 0
  }

  ghost function LateCommits(db: Db, es: seq<Event>, r: RequestId): nat {
    if es == [] then 0
    else
      var init := es[..|es| - 1];
      LateCommits(db, init, r) + if IsLate(Run(db, init), es[|es| - 1], r) then 1 else 0
  }

  /**
    Every run: a request is charged at most as often as it was admitted, once less while it
    is reserved, and once more for each late commit. Only late commits charge twice.
   */
  lemma {:induction false} SettledAtMostAdmitted(db: Db, es: seq<Event>, r: RequestId)
    requires Valid(db) && FirstHold(db.holds, r).None?
    ensures Settlements(db, es, r) + (if FirstHold(Run(db, es).holds, r).Some? then 1 else 0) <=
              Admissions(db, es, r) + LateCommits(db, es, r)
  {
    if es != [] {
      var init := es[..|es| - 1];
      SettledAtMostAdmitted(db, init, r);
      RunKeepsValid(db, init);
      SettlementStep(Run(db, init), es[|es| - 1], r);
    }
  }

  lemma SettlementStep(db: Db, e: Event, r: RequestId)
    requires Valid(db)
    ensures var live, live' := FirstHold(db.holds, r).Some?, FirstHold(Step(db, e).holds, r).Some?;
            && (live' && !live ==> AdmitsRequest(db, e, r))
            && (SettlesRequest(db, e, r) ==> !live' && (live || IsLate(db, e, r)))
  {
    StepHolds(db, e);
    if FirstHold(Step(db, e).holds, r).Some? {
      assert FirstHold(Step(db, e).holds, r).value in Step(db, e).holds;
    }
    match e
    case DoSettle(q, _, _) => FilterFacts(db.holds, OfRequest(q));
    case DoCommit(s, _, _) => FilterFacts(db.holds, OfRequest(s.first.request));
    case _ =>
  }

  lemma {:induction false} AtomicRunsAreNeverLate(db: Db, es: seq<Event>, r: RequestId)
    requires Atomic(es)
    ensures LateCommits(db, es, r) == 0
  {
    if es != [] {
      AtomicRunsAreNeverLate(db, es[..|es| - 1], r);
    }
  }

  ghost predicate ReservedOnce(es: seq<Event>, r: RequestId) {
    forall i, j :: 0 <= i < j < |es| ==>
      !(es[i].DoReserve? && es[j].DoReserve? && es[i].request == r && es[j].request == r)
  }

  lemma {:induction false} AdmissionsAtMostOne(db: Db, es: seq<Event>, r: RequestId)
    requires ReservedOnce(es, r)
    ensures Admissions(db, es, r) <= 1
    ensures (forall i :: 0 <= i < |es| ==> !(es[i].DoReserve? && es[i].request == r)) ==> Admissions(db, es, r) == 0
  {
    if es != [] {
      AdmissionsAtMostOne(db, es[..|es| - 1], r);
    }
  }

  // ----- The exact count ---------------------------------------------------

  /** A cleanup that takes the last reservation of r: nothing is left to settle. */
  ghost predicate IsSweep(db: Db, e: Event, r: RequestId) {
    e.DoCleanup? && FirstHold(db.holds, r).Some? && FirstHold(Step(db, e).holds, r).None?
  }

  ghost function Sweeps(db: Db, es: seq<Event>, r: RequestId): nat {
    if es == [] then 0
    else
      var init := es[..|es| - 1];
      Sweeps(db, init, r) + if IsSweep(Run(db, init), es[|es| - 1], r) then 1 else 0
  }

  /** 1 while r is reserved. */
  ghost function Live(db: Db, r: RequestId): nat {
    if FirstHold(db.holds, r).Some? then 1 else 0
  }

  lemma OthersLeaveLive(db: Db, e: Event, r: RequestId)
    requires Valid(db)
    requires match e
             case DoReserve(_, _, q, _) => q != r
             case DoSettle(q, _, _) => q != r
             case DoCommit(s, _, _) => s.first.request != r
             case _ => e.DoReset?
    ensures Live(Step(db, e), r) == Live(db, r)
  {
    match e
    case DoReserve(matched, estimate, q, expires) =>
      if Legal(db, e) {
        FirstHoldAppend(db.holds, NewHolds(MatchedRows(db, matched), q, estimate, expires), r);
      }
    case DoSettle(q, _, _) => FirstHoldKept(db.holds, OfRequest(q), r);
    case DoCommit(s, _, _) => FirstHoldKept(db.holds, OfRequest(s.first.request), r);
    case _ =>
  }

  lemma AdmissionIsLive(db: Db, e: Event, r: RequestId)
    requires Valid(db) && e.DoReserve? && e.request == r && Fresh(db, e)
    ensures Live(db, r) == 0 && Live(Step(db, e), r) == if AdmitsRequest(db, e, r) then 1 else 0
  {
    if AdmitsRequest(db, e, r) {
      FreshReserveHolds(db, e.matched, e.estimate, r, e.expires);
    }
  }

  /** One step of the count below. */
  lemma CountStep(db: Db, e: Event, r: RequestId)
    requires Valid(db) && Fresh(db, e)
    ensures Live(Step(db, e), r) + (if SettlesRequest(db, e, r) then 1 else 0) + (if IsSweep(db, e, r) then 1 else 0) ==
              Live(db, r) + (if AdmitsRequest(db, e, r) then 1 else 0) + if IsLate(db, e, r) then 1 else 0
  {
    match e
    case DoReserve(_, _, q, _) =>
      if q == r {
        AdmissionIsLive(db, e, r);
      } else {
        OthersLeaveLive(db, e, r);
      }
    case DoSettle(q, _, _) =>
      if q == r {
        SettlementStep(db, e, r);
      } else {
        OthersLeaveLive(db, e, r);
      }
    case DoCommit(s, _, _) =>
      if s.first.request == r {
        SettlementStep(db, e, r);
      } else {
        OthersLeaveLive(db, e, r);
      }
    case DoCleanup(_) => SettlementStep(db, e, r);
    case DoReset(_, _) => OthersLeaveLive(db, e, r);
  }

  /**
    For fresh ids, in every run: what was admitted has been charged, swept, or is still
    reserved, and every late commit is one more charge.
   */
  lemma {:induction false} ChargesCounted(db: Db, es: seq<Event>, r: RequestId)
    requires Valid(db) && FirstHold(db.holds, r).None? && FreshRun(db, es)
    ensures Settlements(db, es, r) + Live(Run(db, es), r) + Sweeps(db, es, r) ==
              Admissions(db, es, r) + LateCommits(db, es, r)
  {
    if es != [] {
      var init := es[..|es| - 1];
      ChargesCounted(db, init, r);
      RunKeepsValid(db, init);
      CountStep(Run(db, init), es[|es| - 1], r);
    }
  }

  /**
    Exactly when a request is charged more often than it was admitted: when its late
    commits outnumber the sweeps and reservations that went without a charge.
   */
  lemma ChargedAtMostAdmittedIff(db: Db, es: seq<Event>, r: RequestId)
    requires Valid(db) && FirstHold(db.holds, r).None? && FreshRun(db, es)
    ensures Settlements(db, es, r) <= Admissions(db, es, r) <==>
              LateCommits(db, es, r) <= Sweeps(db, es, r) + Live(Run(db, es), r)
  {
    ChargesCounted(db, es, r);
  }

  /**
    For a request admitted once and without a late commit so far, the next commit is a
    second charge iff the reservation is gone and no cleanup has swept it.
   */
  lemma SecondChargeIff(db: Db, es: seq<Event>, r: RequestId, e: Event)
    requires Valid(db) && FirstHold(db.holds, r).None? && FreshRun(db, es)
    requires Admissions(db, es, r) == 1 && LateCommits(db, es, r) == 0
    requires e.DoCommit? && SettlesRequest(Run(db, es), e, r)
    ensures Settlements(db, es + [e], r) == 2 <==>
              FirstHold(Run(db, es).holds, r).None? && Sweeps(db, es, r) == 0
    ensures 1 <= Settlements(db, es + [e], r) <= 2
  {
    ChargesCounted(db, es, r);
    assert (es + [e])[..|es|] == es;
  }

  /**
    An id that is submitted once is charged at most once exactly as long as its late
    commits are made up for by a sweep or a live reservation; if it was denied, only late
    commits charge it. Atomic settlements are never late.
   */
  lemma ChargedAtMostOnce(db: Db, es: seq<Event>, r: RequestId)
    requires Valid(db) && FirstHold(db.holds, r).None? && ReservedOnce(es, r)
    ensures Settlements(db, es, r) <= 1 + LateCommits(db, es, r)
    ensures Admissions(db, es, r) == 0 ==> Settlements(db, es, r) <= LateCommits(db, es, r)
    ensures Atomic(es) ==> LateCommits(db, es, r) == 0
    ensures FreshRun(db, es) && Admissions(db, es, r) == 1 ==>
              (Settlements(db, es, r) <= 1 <==> LateCommits(db, es, r) <= Sweeps(db, es, r) + Live(Run(db, es), r))
    ensures FreshRun(db, es) && Admissions(db, es, r) == 0 ==> Settlements(db, es, r) == LateCommits(db, es, r)
  {
    SettledAtMostAdmitted(db, es, r);
    AdmissionsAtMostOne(db, es, r);
    if Atomic(es) {
      AtomicRunsAreNeverLate(db, es, r);
    }
    if FreshRun(db, es) {
      ChargesCounted(db, es, r);
    }
  }

  /** Settling again changes nothing, however much time and traffic lie between. */
  lemma {:induction false} NothingLeftToSettle(db: Db, es: seq<Event>, r: RequestId, cost: real, now: nat)
    requires Valid(db) && FirstHold(db.holds, r).None?
    requires forall i :: 0 <= i < |es| ==> !(es[i].DoReserve? && es[i].request == r)
    ensures FirstHold(Run(db, es).holds, r).None?
    ensures Settle(Run(db, es), r, cost, now) == Run(db, es)
  {
    if es != [] {
      var init, e := es[..|es| - 1], es[|es| - 1];
      NothingLeftToSettle(db, init, r, cost, now);
      RunKeepsValid(db, init);
      StepHolds(Run(db, init), e);
    }
  }

  lemma SecondSettleIsNoop(db: Db, es: seq<Event>, r: RequestId, c1: real, c2: real, t1: nat, t2: nat)
    requires Valid(db) && 0.0 <= c1
    requires forall i :: 0 <= i < |es| ==> !(es[i].DoReserve? && es[i].request == r)
    ensures var later := Run(Settle(db, r, c1, t1), es); Settle(later, r, c2, t2) == later
  {
    FilterFacts(db.holds, OfRequest(r));
    StepKeepsValid(db, DoSettle(r, c1, t1));
    NothingLeftToSettle(Settle(db, r, c1, t1), es, r, c2, t2);
  }

  /** Once one reservation of a request has expired and been swept, its settlement is a no-op. */
  lemma SettleAfterExpiryIsNoop(db: Db, r: RequestId, now: nat, es: seq<Event>, cost: real, t: nat)
    requires Valid(db) && Uniform(db.holds)
    requires exists h :: h in db.holds && h.request == r && h.expires <= now
    requires forall i :: 0 <= i < |es| ==> !(es[i].DoReserve? && es[i].request == r)
    ensures var later := Run(Cleanup(db, now), es); Settle(later, r, cost, t) == later
  {
    FilterFacts(db.holds, ExpiredBy(now));
    StepKeepsValid(db, DoCleanup(now));
    NothingLeftToSettle(Cleanup(db, now), es, r, cost, t);
  }
}
