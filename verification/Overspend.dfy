/**
  The promise of reservations: a budget that cannot fall back is never spent past its
  amount by more than settlements exceed their estimates, and by what a reset or a stale
  commit hid from admission.
 */
module Overspend {
  import opened Model
  import opened Hierarchy
  import opened BucketFill
  import opened Admission
  import opened Database
  import opened Requests
  import opened PendingUsage
  import opened Interleaving

  /** Usage plus live reservations: what b has spent or promised. */
  ghost function Committed(db: Db, b: Id): real
    requires b in db.rows
  {
    db.rows[b].usage + Reserved(db.holds, b)
  }

  /** By how much a settlement charges b more than it frees on b. */
  ghost function OverrunBy(db: Db, e: Event, b: Id): real {
    match SettledHold(db, e)
    case None => 0.0
    case Some(h) => Max0(ChargedBy(db, e, b) - HeldFor(db.holds, h.request, b))
  }

  /** Overruns since b's last reset. */
  ghost function Overrun(db: Db, es: seq<Event>, b: Id): real {
    if es == [] then 0.0
    else
      var init, e := es[..|es| - 1], es[|es| - 1];
      if ResetsBudget(e, b) then 0.0 else Overrun(db, init, b) + OverrunBy(Run(db, init), e, b)
  }

  lemma BoundStep(db: Db, e: Event, b: Id, slack: real)
    requires Valid(db) && b in db.rows && !ResetsBudget(e, b) && !db.rows[b].MayFallBack()
    requires Reserved(db.holds, b) <= db.rows[b].pending + slack
    requires Committed(db, b) <= db.rows[b].config.amount + slack
    ensures b in Step(db, e).rows
    ensures Committed(Step(db, e), b) <= db.rows[b].config.amount + slack + OverrunBy(db, e, b)
  {
    if Legal(db, e) {
      match e
      case DoReserve(matched, estimate, r, expires) =>
        ReserveEffect(db, matched, estimate, r, expires, b);
        if b in matched && Step(db, e) != db {
          AdmittedFits(db, matched, estimate, b);
        }
      case DoSettle(r, cost, now) =>
        if FirstHold(db.holds, r).Some? {
          SettleEffect(db, r, cost, now, b);
        }
      case DoCommit(s, cost, now) => CommitEffect(db, s, cost, now, b);
      case DoCleanup(now) => CleanupEffect(db, now, b);
      case DoReset(_, _) =>
    }
  }

  /** A budget that cannot fall back admits a request only if the estimate fits. */
  lemma AdmittedFits(db: Db, matched: seq<Id>, estimate: real, b: Id)
    requires Valid(db) && Distinct(matched) && b in matched && b in db.rows
    requires forall i :: 0 <= i < |matched| ==> matched[i] in db.rows
    requires Admits(MatchedRows(db, matched), estimate) && !db.rows[b].MayFallBack()
    ensures db.rows[b].Remaining() >= estimate
  {
    MatchedFacts(db, matched);
    InIds(MatchedRows(db, matched), b);
  }

  /**
    A state from which b can be followed: what is spent and promised fits the amount,
    except for reservations that pending does not cover. A budget that has just been reset
    is in such a state, whatever is reserved on it.
   */
  ghost predicate SafeStart(db: Db, b: Id) {
    && Valid(db) && b in db.rows && !db.rows[b].MayFallBack()
    && 0.0 <= db.rows[b].config.amount && 0.0 <= db.rows[b].pending
    && Committed(db, b) <= db.rows[b].config.amount + Max0(-Gap(db, b))
  }

  lemma ResetIsSafeStart(db: Db, which: set<Id>, now: nat, b: Id)
    requires Valid(db) && b in db.rows && b in which && !db.rows[b].MayFallBack() && 0.0 <= db.rows[b].config.amount
    ensures SafeStart(Reset(db, which, now), b)
  {
    ResetGap(db, DoReset(which, now), b);
    StepKeepsValid(db, DoReset(which, now));
  }

  /**
    Every run, with resets and with commits of earlier reads: spent plus promised is at most
    the amount plus the overruns since the last reset plus what pending failed to cover.
   */
  lemma {:induction false} SpendBound(db: Db, es: seq<Event>, b: Id)
    requires SafeStart(db, b)
    ensures b in Run(db, es).rows && 0.0 <= Overrun(db, es, b)
    ensures Committed(Run(db, es), b) <= db.rows[b].config.amount + Overrun(db, es, b) + Uncovered(db, es, b)
  {
    if es != [] {
      var init, e := es[..|es| - 1], es[|es| - 1];
      SpendBound(db, init, b);
      PendingCovers(db, init, b);
      RunKeepsValid(db, init);
      if ResetsBudget(e, b) {
        ResetGap(Run(db, init), e, b);
      } else {
        BoundStep(Run(db, init), e, b, Overrun(db, init, b) + Uncovered(db, init, b));
      }
    }
  }

  // ----- The bound in terms of estimates -----------------------------------

  /** The matched budgets include every ancestor of the first one in processing order. */
  ghost predicate AncestorsMatched(db: Db, e: Event) {
    e.DoReserve? && Legal(db, e) && e.matched != [] ==>
      var bs := MatchedRows(db, e.matched);
      bs != [] && forall i :: i in Chain(db.rows, bs[0].id) ==> i in e.matched
  }

  ghost predicate ClosedRun(db: Db, es: seq<Event>) {
    es != [] ==> ClosedRun(db, es[..|es| - 1]) && AncestorsMatched(Run(db, es[..|es| - 1]), es[|es| - 1])
  }

  /** Every budget that settling r may charge carries one of r's reservations. */
  ghost predicate Covered(db: Db, r: RequestId) {
    match FirstHold(db.holds, r)
    case None => true
    case Some(h) => forall i :: i in Chain(db.rows, h.budget) ==> Hold(i, r, h.estimate, h.expires) in db.holds
  }

  lemma CoveredStep(db: Db, e: Event, r: RequestId)
    requires Valid(db) && Uniform(db.holds) && Fresh(db, e) && AncestorsMatched(db, e)
    requires Covered(db, r)
    ensures Covered(Step(db, e), r)
  {
    StepKeepsValid(db, e);
    if Legal(db, e) {
      match e
      case DoReserve(matched, estimate, q, expires) =>
        if Step(db, e) != db {
          CoveredReserve(db, e, r);
        }
      case DoSettle(q, _, _) => CoveredDelete(db, Step(db, e), OfRequest(q), r);
      case DoCommit(s, _, _) => CoveredDelete(db, Step(db, e), OfRequest(s.first.request), r);
      case DoCleanup(now) => CoveredDelete(db, Step(db, e), ExpiredBy(now), r);
      case DoReset(_, _) => CoveredFrame(db, Step(db, e), r);
    }
  }

  lemma CoveredFrame(db: Db, db': Db, r: RequestId)
    requires Covered(db, r) && SameShape(db.rows, db'.rows)
    requires FirstHold(db'.holds, r) == FirstHold(db.holds, r)
    requires forall h :: h in db.holds && h.request == r ==> h in db'.holds
    ensures Covered(db', r)
  {
    if FirstHold(db.holds, r).Some? {
      ChainShape(db.rows, db'.rows, FirstHold(db.holds, r).value.budget, db.rows.Keys);
    }
  }

  lemma CoveredDelete(db: Db, db': Db, p: Pick, r: RequestId)
    requires Valid(db) && Uniform(db.holds) && Covered(db, r) && SameShape(db.rows, db'.rows)
    requires db'.holds == Kept(db.holds, p) || db' == db
    ensures Covered(db', r)
  {
    FilterFacts(db.holds, p);
    if h :| h in db.holds && h.request == r && Picks(p, h) {
      assert forall g :: g in db.holds && g.request == r ==> Picks(p, g);
    } else {
      FirstHoldKept(db.holds, p, r);
      CoveredFrame(db, db', r);
    }
  }

  lemma CoveredReserve(db: Db, e: Event, r: RequestId)
    requires Valid(db) && e.DoReserve? && Legal(db, e) && Fresh(db, e) && AncestorsMatched(db, e)
    requires Step(db, e) != db && SameShape(db.rows, Step(db, e).rows)
    requires Covered(db, r)
    ensures Covered(Step(db, e), r)
  {
    FreshReserveHolds(db, e.matched, e.estimate, e.request, e.expires);
    var bs, db' := MatchedRows(db, e.matched), Step(db, e);
    if r == e.request {
      ChainShape(db.rows, db'.rows, bs[0].id, db.rows.Keys);
    } else {
      FirstHoldAppend(db.holds, NewHolds(bs, e.request, e.estimate, e.expires), r);
      CoveredFrame(db, db', r);
    }
  }

  lemma {:induction false} RunStaysCovered(db: Db, es: seq<Event>, r: RequestId)
    requires Valid(db) && Uniform(db.holds) && Covered(db, r)
    requires FreshRun(db, es) && ClosedRun(db, es)
    ensures Covered(Run(db, es), r)
  {
    if es != [] {
      var init := es[..|es| - 1];
      RunStaysCovered(db, init, r);
      RunKeepsValid(db, init);
      HoldsStayUniform(db, init);
      CoveredStep(Run(db, init), es[|es| - 1], r);
    }
  }

  /** Actual cost beyond the estimate of a settled request. */
  ghost function ExcessBy(db: Db, e: Event): real {
    if !e.DoSettle? || !Legal(db, e) then 0.0
    else
      match FirstHold(db.holds, e.request)
      case None => 0.0
      case Some(h) => Max0(e.cost - h.estimate)
  }

  /** Its sum over the requests settled since b's last reset. */
  ghost function Excess(db: Db, es: seq<Event>, b: Id): real {
    if es == [] then 0.0
    else
      var init, e := es[..|es| - 1], es[|es| - 1];
      if ResetsBudget(e, b) then 0.0 else Excess(db, init, b) + ExcessBy(Run(db, init), e)
  }

  /** If the event charges b, the settled request has a reservation on b. */
  ghost predicate ChargeReserved(db: Db, e: Event, b: Id) {
    e.DoSettle? && Legal(db, e) && FirstHold(db.holds, e.request).Some? &&
    ChargeFor(Path(db.rows, FirstHold(db.holds, e.request).value.budget), e.cost, b) > 0.0 ==>
      HasHold(db.holds, e.request, b)
  }

  ghost predicate ChargesReserved(db: Db, es: seq<Event>, b: Id) {
    es != [] ==> ChargesReserved(db, es[..|es| - 1], b) && ChargeReserved(Run(db, es[..|es| - 1]), es[|es| - 1], b)
  }

  lemma OverrunWithinExcess(db: Db, e: Event, b: Id)
    requires Valid(db) && Uniform(db.holds) && !e.DoCommit? && ChargeReserved(db, e, b)
    ensures OverrunBy(db, e, b) <= ExcessBy(db, e)
  {
    if e.DoSettle? && Legal(db, e) && FirstHold(db.holds, e.request).Some? {
      var h := FirstHold(db.holds, e.request).value;
      PathRows(db.rows, h.budget);
      ChargeForBounds(Path(db.rows, h.budget), e.cost, b);
      if HasHold(db.holds, e.request, b) {
        var g :| g in db.holds && g.request == e.request && g.budget == b;
        HeldForIs(db.holds, g);
      } else {
        HeldForNone(db.holds, e.request, b);
      }
    }
  }

  lemma {:induction false} OverrunAtMostExcess(db: Db, es: seq<Event>, b: Id)
    requires Valid(db) && Uniform(db.holds) && Atomic(es) && FreshRun(db, es) && ChargesReserved(db, es, b)
    ensures Overrun(db, es, b) <= Excess(db, es, b)
  {
    if es != [] {
      var init := es[..|es| - 1];
      OverrunAtMostExcess(db, init, b);
      RunKeepsValid(db, init);
      HoldsStayUniform(db, init);
      OverrunWithinExcess(Run(db, init), es[|es| - 1], b);
    }
  }

  /**
    The overspend bound. For fresh request ids, atomic settlements, any interleaving of
    reservations, settlements, cleanups and resets, and a budget that is charged only by
    requests that reserved on it: spent plus promised is at most the amount, plus the sum of
    max(0, actual - estimate) over the requests settled in the period, plus what was
    reserved on the budget when the period began.
   */
  lemma OverspendBound(db: Db, es: seq<Event>, b: Id)
    requires SafeStart(db, b) && Uniform(db.holds) && Atomic(es) && FreshRun(db, es) && ChargesReserved(db, es, b)
    ensures b in Run(db, es).rows
    ensures Committed(Run(db, es), b) <= db.rows[b].config.amount + Excess(db, es, b) + Uncovered(db, es, b)
  {
    SpendBound(db, es, b);
    OverrunAtMostExcess(db, es, b);
  }

  // ----- When the hypotheses hold ------------------------------------------

  lemma CoveredChargeReserved(db: Db, e: Event, b: Id)
    requires Valid(db) && (e.DoSettle? ==> Covered(db, e.request))
    ensures ChargeReserved(db, e, b)
  {
    if e.DoSettle? && Legal(db, e) && FirstHold(db.holds, e.request).Some? {
      var h := FirstHold(db.holds, e.request).value;
      var path := Path(db.rows, h.budget);
      PathRows(db.rows, h.budget);
      if b !in Chain(db.rows, h.budget) {
        forall i | 0 <= i < |path|
          ensures path[i].id != b
        {
          assert Ids(path)[i] in Ids(path);
        }
        ChargeForAbsent(path, e.cost, b);
      }
    }
  }

  /** Requests that match their ancestors charge only budgets they reserved on. */
  lemma {:induction false} ClosedRunsReserveCharges(db: Db, es: seq<Event>, b: Id)
    requires Valid(db) && Uniform(db.holds) && (forall r :: Covered(db, r))
    requires FreshRun(db, es) && ClosedRun(db, es)
    ensures ChargesReserved(db, es, b)
  {
    if es != [] {
      var init, e := es[..|es| - 1], es[|es| - 1];
      ClosedRunsReserveCharges(db, init, b);
      RunKeepsValid(db, init);
      if e.DoSettle? {
        RunStaysCovered(db, init, e.request);
      }
      CoveredChargeReserved(Run(db, init), e, b);
    }
  }

  /** No settlement costs more than its estimate. */
  ghost predicate WithinEstimates(db: Db, es: seq<Event>) {
    es != [] ==> WithinEstimates(db, es[..|es| - 1]) && ExcessBy(Run(db, es[..|es| - 1]), es[|es| - 1]) == 0.0
  }

  lemma {:induction false} NoExcess(db: Db, es: seq<Event>, b: Id)
    requires WithinEstimates(db, es)
    ensures Excess(db, es, b) == 0.0
  {
    if es != [] {
      NoExcess(db, es[..|es| - 1], b);
    }
  }

  /**
    If no settlement costs more than its estimate, usage passes the amount by at most what
    was reserved when the period began, and not at all if resets are quiet.
   */
  lemma NoOverspend(db: Db, es: seq<Event>, b: Id)
    requires SafeStart(db, b) && Uniform(db.holds) && Atomic(es) && FreshRun(db, es) && ChargesReserved(db, es, b)
    requires WithinEstimates(db, es)
    ensures b in Run(db, es).rows
    ensures Run(db, es).rows[b].usage <= db.rows[b].config.amount + Uncovered(db, es, b)
    ensures 0.0 <= Gap(db, b) && QuietResets(db, es, b) ==> Run(db, es).rows[b].usage <= db.rows[b].config.amount
  {
    OverspendBound(db, es, b);
    NoExcess(db, es, b);
    RunKeepsValid(db, es);
    ReservedNonNegative(Run(db, es).holds, b);
    if 0.0 <= Gap(db, b) && QuietResets(db, es, b) {
      QuietMeansCovered(db, es, b);
    }
  }
}
