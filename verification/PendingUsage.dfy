/**
  How the stored pending figure of a budget relates to its live reservations.
  docs/DESIGN.md:243 says they are equal; the lemmas below say when.
 */
module PendingUsage {
  import opened Model
  import opened Admission
  import opened Database
  import opened Requests

  /** Pending less live reservations. The documented invariant is a gap of zero. */
  ghost function Gap(db: Db, b: Id): real
    requires b in db.rows
  {
    db.rows[b].pending - Reserved(db.holds, b)
  }

  ghost predicate ResetsBudget(e: Event, b: Id) {
    e.DoReset? && b in e.which
  }

  /** The reservation that an event settles, as its transaction knows it. */
  ghost function SettledHold(db: Db, e: Event): Option<Hold> {
    if !Legal(db, e) then None
    else
      match e
      case DoSettle(r, _, _) => FirstHold(db.holds, r)
      case DoCommit(s, _, _) => Some(s.first)
      case _ => None
  }

  /**
    How far a settlement moves the gap of b: it deletes what the request holds on b, but
    releases the estimate only if b is the first budget.
   */
  ghost function DriftBy(db: Db, e: Event, b: Id): real {
    match SettledHold(db, e)
    case None => 0.0
    case Some(h) => HeldFor(db.holds, h.request, b) - if h.budget == b then h.estimate else 0.0
  }

  /** What GREATEST(0, ...) adds when the released amount exceeds the pending figure. */
  ghost function ClampedBy(db: Db, e: Event, b: Id): real
    requires b in db.rows
  {
    match SettledHold(db, e)
    case Some(h) => if h.budget == b then Max0(h.estimate - db.rows[b].pending) else 0.0
    case None => if e.DoCleanup? then Max0(Reserved(Taken(db.holds, ExpiredBy(e.now)), b) - db.rows[b].pending) else 0.0
  }

  lemma GapStep(db: Db, e: Event, b: Id)
    requires Valid(db) && b in db.rows && 0.0 <= db.rows[b].pending && !ResetsBudget(e, b)
    ensures b in Step(db, e).rows && 0.0 <= Step(db, e).rows[b].pending
    ensures Gap(Step(db, e), b) == Gap(db, b) + DriftBy(db, e, b) + ClampedBy(db, e, b)
    ensures 0.0 <= ClampedBy(db, e, b)
  {
    if Legal(db, e) {
      match e
      case DoReserve(matched, estimate, r, expires) => ReserveEffect(db, matched, estimate, r, expires, b);
      case DoSettle(r, cost, now) => GapSettle(db, r, cost, now, b);
      case DoCommit(s, cost, now) => CommitEffect(db, s, cost, now, b);
      case DoCleanup(now) => CleanupEffect(db, now, b);
      case DoReset(_, _) =>
    }
  }

  lemma GapSettle(db: Db, r: RequestId, cost: real, now: nat, b: Id)
    requires Valid(db) && b in db.rows && 0.0 <= db.rows[b].pending && Legal(db, DoSettle(r, cost, now))
    ensures var e, after := DoSettle(r, cost, now), Settle(db, r, cost, now);
            && b in after.rows && 0.0 <= after.rows[b].pending
            && Gap(after, b) == Gap(db, b) + DriftBy(db, e, b) + ClampedBy(db, e, b)
  {
    if FirstHold(db.holds, r).Some? {
      SettleEffect(db, r, cost, now, b);
    }
  }

  /** A settlement that reads and commits at once never lowers the gap: on the first budget it is even. */
  lemma AtomicDrift(db: Db, e: Event, b: Id)
    requires Valid(db) && !e.DoCommit?
    ensures 0.0 <= DriftBy(db, e, b)
    ensures DriftBy(db, e, b) ==
              match SettledHold(db, e)
              case None => 0.0
              case Some(h) => if h.budget == b then 0.0 else HeldFor(db.holds, h.request, b)
  {
    if SettledHold(db, e).Some? {
      var r := SettledHold(db, e).value.request;
      FilterFacts(db.holds, OfRequest(r));
      ReservedNonNegative(Taken(db.holds, OfRequest(r)), b);
      SnapshotFacts(db, r);
    }
  }

  lemma ResetGap(db: Db, e: Event, b: Id)
    requires Valid(db) && b in db.rows && ResetsBudget(e, b)
    ensures b in Step(db, e).rows && Step(db, e).rows[b].pending == 0.0
    ensures Gap(Step(db, e), b) == -Reserved(db.holds, b) && 0.0 <= Reserved(db.holds, b)
  {
    ReservedNonNegative(db.holds, b);
  }

  // ----- The exact figure, in every run ------------------------------------

  /** The gap that b's current period opened with: a reset leaves live reservations uncovered. */
  ghost function Opening(db: Db, es: seq<Event>, b: Id): real
    requires b in db.rows
  {
    if es == [] then Gap(db, b)
    else
      var init := es[..|es| - 1];
      if ResetsBudget(es[|es| - 1], b) then -Reserved(Run(db, init).holds, b) else Opening(db, init, b)
  }

  /** Drift since b's last reset. */
  ghost function Drift(db: Db, es: seq<Event>, b: Id): real {
    if es == [] then 0.0
    else
      var init, e := es[..|es| - 1], es[|es| - 1];
      if ResetsBudget(e, b) then 0.0 else Drift(db, init, b) + DriftBy(Run(db, init), e, b)
  }

  /** What the clamp has added since b's last reset. */
  ghost function Clamped(db: Db, es: seq<Event>, b: Id): real {
    if es == [] then 0.0
    else
      var init, e := es[..|es| - 1], es[|es| - 1];
      if ResetsBudget(e, b) || b !in Run(db, init).rows then 0.0
      else Clamped(db, init, b) + ClampedBy(Run(db, init), e, b)
  }

  /**
    Every run, with resets and with commits of earlier reads: pending is live reservations
    plus what the period opened with, plus the drift of its settlements, plus the clamp.
   */
  lemma {:induction false} PendingExact(db: Db, es: seq<Event>, b: Id)
    requires Valid(db) && b in db.rows && 0.0 <= db.rows[b].pending
    ensures b in Run(db, es).rows && 0.0 <= Run(db, es).rows[b].pending
    ensures Gap(Run(db, es), b) == Opening(db, es, b) + Drift(db, es, b) + Clamped(db, es, b)
    ensures 0.0 <= Clamped(db, es, b)
  {
    if es != [] {
      var init, e := es[..|es| - 1], es[|es| - 1];
      PendingExact(db, init, b);
      RunKeepsValid(db, init);
      if ResetsBudget(e, b) {
        ResetGap(Run(db, init), e, b);
      } else {
        GapStep(Run(db, init), e, b);
      }
    }
  }

  /** With atomic settlements, a period that opens covered stays covered and is never clamped. */
  lemma {:induction false} CoveredPeriod(db: Db, es: seq<Event>, b: Id)
    requires Valid(db) && b in db.rows && 0.0 <= db.rows[b].pending && Atomic(es)
    ensures 0.0 <= Drift(db, es, b)
    ensures 0.0 <= Opening(db, es, b) ==> Clamped(db, es, b) == 0.0
  {
    if es != [] {
      var init, e := es[..|es| - 1], es[|es| - 1];
      CoveredPeriod(db, init, b);
      PendingExact(db, init, b);
      RunKeepsValid(db, init);
      AtomicDrift(Run(db, init), e, b);
      if 0.0 <= Opening(db, init, b) && !ResetsBudget(e, b) {
        NoClampAbove(Run(db, init), e, b);
      }
    }
  }

  lemma NoClampAbove(db: Db, e: Event, b: Id)
    requires Valid(db) && b in db.rows && 0.0 <= Gap(db, b) && !e.DoCommit?
    ensures ClampedBy(db, e, b) == 0.0
  {
    match SettledHold(db, e) {
      case Some(h) =>
        if h.budget == b {
          SettlementFits(db, h.request);
        }
      case None =>
        if e.DoCleanup? {
          CleanupFits(db, e.now, b);
        }
    }
  }

  lemma SettlementFits(db: Db, r: RequestId)
    requires Valid(db) && FirstHold(db.holds, r).Some?
    ensures var h := FirstHold(db.holds, r).value;
            h.budget in db.rows && (0.0 <= Gap(db, h.budget) ==> h.estimate <= db.rows[h.budget].pending)
  {
    var h := FirstHold(db.holds, r).value;
    SnapshotFacts(db, r);
    FilterFacts(db.holds, OfRequest(r));
    ReservedSplit(db.holds, OfRequest(r), h.budget);
    ReservedNonNegative(Kept(db.holds, OfRequest(r)), h.budget);
  }

  lemma CleanupFits(db: Db, now: nat, b: Id)
    requires Valid(db) && b in db.rows && 0.0 <= Gap(db, b)
    ensures Reserved(Taken(db.holds, ExpiredBy(now)), b) <= db.rows[b].pending
  {
    FilterFacts(db.holds, ExpiredBy(now));
    ReservedSplit(db.holds, ExpiredBy(now), b);
    ReservedNonNegative(Kept(db.holds, ExpiredBy(now)), b);
  }

  lemma {:induction false} AllExpire(holds: seq<Hold>) returns (now: nat)
    ensures forall h :: h in holds ==> h.expires <= now
  {
    now := 0;
    if holds != [] {
      var init, h := holds[..|holds| - 1], holds[|holds| - 1];
      now := AllExpire(init);
      now := if now < h.expires then h.expires else now;
      assert holds == init + [h];
    }
  }

  /** No settlement and no cleanup of this state would be clamped on b. */
  ghost predicate ReleasesFit(db: Db, b: Id)
    requires b in db.rows
  {
    && (forall now :: Reserved(Taken(db.holds, ExpiredBy(now)), b) <= db.rows[b].pending)
    && (forall r :: FirstHold(db.holds, r).Some? && FirstHold(db.holds, r).value.budget == b ==>
          FirstHold(db.holds, r).value.estimate <= db.rows[b].pending)
  }

  /** The clamp can bite exactly when pending does not cover the live reservations. */
  lemma ClampBitesIff(db: Db, b: Id)
    requires Valid(db) && b in db.rows
    ensures ReleasesFit(db, b) <==> 0.0 <= Gap(db, b)
  {
    if 0.0 <= Gap(db, b) {
      forall now
        ensures Reserved(Taken(db.holds, ExpiredBy(now)), b) <= db.rows[b].pending
      {
        CleanupFits(db, now, b);
      }
      forall r | FirstHold(db.holds, r).Some? && FirstHold(db.holds, r).value.budget == b
        ensures FirstHold(db.holds, r).value.estimate <= db.rows[b].pending
      {
        SettlementFits(db, r);
      }
    }
    if ReleasesFit(db, b) {
      var now := AllExpire(db.holds);
      TakenAllOrNone(db.holds, ExpiredBy(now), b, true);
      assert Reserved(Taken(db.holds, ExpiredBy(now)), b) <= db.rows[b].pending;
    }
  }

  /**
    Along every run of atomic settlements: no release is clamped while the period opened
    covered, and a period that a reset opened is covered iff no reservation was live then.
   */
  lemma ClampNeverBites(db: Db, es: seq<Event>, b: Id)
    requires Valid(db) && b in db.rows && 0.0 <= db.rows[b].pending && Atomic(es)
    ensures b in Run(db, es).rows
    ensures 0.0 <= Opening(db, es, b) ==> ReleasesFit(Run(db, es), b)
    ensures es != [] && ResetsBudget(es[|es| - 1], b) ==>
              (ReleasesFit(Run(db, es), b) <==> Reserved(Run(db, es[..|es| - 1]).holds, b) == 0.0)
  {
    PendingExact(db, es, b);
    CoveredPeriod(db, es, b);
    RunKeepsValid(db, es);
    ClampBitesIff(Run(db, es), b);
    if es != [] && ResetsBudget(es[|es| - 1], b) {
      RunKeepsValid(db, es[..|es| - 1]);
      ResetGap(Run(db, es[..|es| - 1]), es[|es| - 1], b);
    }
  }

  /** Stranded pending is never given back before a reset. */
  lemma {:induction false} StrandedGrows(db: Db, es: seq<Event>, more: seq<Event>, b: Id)
    requires Valid(db) && Atomic(more) && forall e :: e in more ==> !ResetsBudget(e, b)
    ensures Drift(db, es, b) <= Drift(db, es + more, b)
  {
    if more == [] {
      assert es + more == es;
    } else {
      var init, e := more[..|more| - 1], more[|more| - 1];
      assert e in more && forall x :: x in init ==> x in more;
      assert (es + more)[..|es + more| - 1] == es + init && (es + more)[|es + more| - 1] == e;
      StrandedGrows(db, es, init, b);
      RunKeepsValid(db, es + init);
      AtomicDrift(Run(db, es + init), e, b);
    }
  }

  // ----- Exactly when the documented equality holds ------------------------

  /** Since b's last reset, every settled request had b as its first budget or held nothing on it. */
  ghost predicate ReleasedInFull(db: Db, es: seq<Event>, b: Id) {
    es != [] ==>
      var init, e := es[..|es| - 1], es[|es| - 1];
      ResetsBudget(e, b) || (ReleasedInFull(db, init, b) && ReleasesInFull(Run(db, init), e, b))
  }

  ghost predicate ReleasesInFull(db: Db, e: Event, b: Id) {
    match SettledHold(db, e)
    case None => true
    case Some(h) => h.budget == b || HeldFor(db.holds, h.request, b) <= 0.0
  }

  lemma {:induction false} NoDriftIff(db: Db, es: seq<Event>, b: Id)
    requires Valid(db) && Atomic(es)
    ensures 0.0 <= Drift(db, es, b)
    ensures Drift(db, es, b) == 0.0 <==> ReleasedInFull(db, es, b)
  {
    if es != [] {
      var init, e := es[..|es| - 1], es[|es| - 1];
      NoDriftIff(db, init, b);
      RunKeepsValid(db, init);
      AtomicDrift(Run(db, init), e, b);
    }
  }

  /**
    With atomic settlements and a period that opened with nothing uncovered, pending is the
    sum of the live reservations exactly as long as every settled request had b as its first
    budget or held nothing on it.
   */
  lemma PendingIsLiveIff(db: Db, es: seq<Event>, b: Id)
    requires Valid(db) && b in db.rows && 0.0 <= db.rows[b].pending && Atomic(es) && Opening(db, es, b) == 0.0
    ensures b in Run(db, es).rows
    ensures Run(db, es).rows[b].pending == Reserved(Run(db, es).holds, b) <==> ReleasedInFull(db, es, b)
  {
    PendingExact(db, es, b);
    CoveredPeriod(db, es, b);
    NoDriftIff(db, es, b);
  }

  ghost predicate SingleMatches(es: seq<Event>) {
    forall i :: 0 <= i < |es| && es[i].DoReserve? ==> |es[i].matched| <= 1
  }

  ghost predicate OneHoldEach(holds: seq<Hold>) {
    forall g, h :: g in holds && h in holds && g.request == h.request ==> g.budget == h.budget
  }

  lemma {:induction false} SingleMatchesStrandNothing(db: Db, es: seq<Event>, b: Id)
    requires Valid(db) && OneHoldEach(db.holds) && Atomic(es) && FreshRun(db, es) && SingleMatches(es)
    ensures Drift(db, es, b) == 0.0
    ensures OneHoldEach(Run(db, es).holds)
  {
    if es != [] {
      var init, e := es[..|es| - 1], es[|es| - 1];
      SingleMatchesStrandNothing(db, init, b);
      RunKeepsValid(db, init);
      var at := Run(db, init);
      StepHolds(at, e);
      AtomicDrift(at, e, b);
      if SettledHold(at, e).Some? && SettledHold(at, e).value.budget != b {
        HeldForNone(at.holds, e.request, b);
      }
    }
  }

  /**
    If every request matches one budget and settlements are atomic, pending is the sum of the
    live reservations in every period that opened with none uncovered.
   */
  lemma PendingIsLiveForSingleMatches(db: Db, es: seq<Event>, b: Id)
    requires Valid(db) && b in db.rows && 0.0 <= db.rows[b].pending && OneHoldEach(db.holds)
    requires Atomic(es) && FreshRun(db, es) && SingleMatches(es) && Opening(db, es, b) == 0.0
    ensures b in Run(db, es).rows && Run(db, es).rows[b].pending == Reserved(Run(db, es).holds, b)
  {
    PendingExact(db, es, b);
    CoveredPeriod(db, es, b);
    SingleMatchesStrandNothing(db, es, b);
  }

  /**
    And otherwise it is not: when a fresh request is admitted on several budgets and
    settled, every one of them except the first keeps the estimate as pending although
    the reservation is gone.
   */
  lemma SharedRequestStrands(db: Db, matched: seq<Id>, estimate: real, r: RequestId, expires: nat, cost: real,
                             now: nat, b: Id)
    requires Valid(db) && Legal(db, DoReserve(matched, estimate, r, expires)) && 0.0 <= cost
    requires FirstHold(db.holds, r).None? && matched != [] && Admits(MatchedRows(db, matched), estimate)
    requires b in matched && b in db.rows && 0.0 <= db.rows[b].pending && MatchedRows(db, matched) != []
    ensures var after := Settle(Step(db, DoReserve(matched, estimate, r, expires)), r, cost, now);
            && b in after.rows
            && Gap(after, b) == Gap(db, b) + if b != MatchedRows(db, matched)[0].id then estimate else 0.0
  {
    AfterFreshReserve(db, matched, estimate, r, expires, b);
    SettleAfterReserve(Step(db, DoReserve(matched, estimate, r, expires)), r, cost, now, b);
  }

  lemma SettleAfterReserve(mid: Db, r: RequestId, cost: real, now: nat, b: Id)
    requires Valid(mid) && FirstHold(mid.holds, r).Some? && 0.0 <= cost && b in mid.rows
    requires FirstHold(mid.holds, r).value.estimate <= mid.rows[b].pending
    requires HeldFor(mid.holds, r, b) == FirstHold(mid.holds, r).value.estimate
    ensures b in Settle(mid, r, cost, now).rows
    ensures Gap(Settle(mid, r, cost, now), b) ==
              Gap(mid, b) + if b != FirstHold(mid.holds, r).value.budget then HeldFor(mid.holds, r, b) else 0.0
  {
    SnapshotFacts(mid, r);
    GapSettle(mid, r, cost, now, b);
  }

  lemma AfterFreshReserve(db: Db, matched: seq<Id>, estimate: real, r: RequestId, expires: nat, b: Id)
    requires Valid(db) && Legal(db, DoReserve(matched, estimate, r, expires))
    requires FirstHold(db.holds, r).None? && matched != [] && Admits(MatchedRows(db, matched), estimate)
    requires b in matched && b in db.rows
    ensures MatchedRows(db, matched) != []
    ensures var mid := Step(db, DoReserve(matched, estimate, r, expires));
            && Valid(mid) && b in mid.rows
            && FirstHold(mid.holds, r) == Some(Hold(MatchedRows(db, matched)[0].id, r, estimate, expires))
            && HeldFor(mid.holds, r, b) == estimate
            && mid.rows[b].pending == db.rows[b].pending + estimate
            && Reserved(mid.holds, b) == Reserved(db.holds, b) + estimate
  {
    FreshReserveHolds(db, matched, estimate, r, expires);
    var bs, mid := MatchedRows(db, matched), Step(db, DoReserve(matched, estimate, r, expires));
    MatchedFacts(db, matched);
    StepKeepsValid(db, DoReserve(matched, estimate, r, expires));
    ReservedConcat(db.holds, NewHolds(bs, r, estimate, expires), b);
    ReservedNew(bs, r, estimate, expires, b);
    HeldForIs(mid.holds, Hold(b, r, estimate, expires));
  }

  // ----- What pending can hide ---------------------------------------------

  /**
    Live reservations that pending may fail to cover: all that were live at b's last reset,
    and every estimate that a commit of an earlier read has released a second time.
   */
  ghost function Uncovered(db: Db, es: seq<Event>, b: Id): real
    requires b in db.rows
  {
    if es == [] then Max0(-Gap(db, b))
    else
      var init, e := es[..|es| - 1], es[|es| - 1];
      if ResetsBudget(e, b) then Reserved(Run(db, init).holds, b)
      else Uncovered(db, init, b) + Max0(-DriftBy(Run(db, init), e, b))
  }

  /** In every run, pending covers the live reservations up to that. */
  lemma {:induction false} PendingCovers(db: Db, es: seq<Event>, b: Id)
    requires Valid(db) && b in db.rows && 0.0 <= db.rows[b].pending
    ensures b in Run(db, es).rows && 0.0 <= Run(db, es).rows[b].pending && 0.0 <= Uncovered(db, es, b)
    ensures Reserved(Run(db, es).holds, b) <= Run(db, es).rows[b].pending + Uncovered(db, es, b)
  {
    if es != [] {
      var init, e := es[..|es| - 1], es[|es| - 1];
      PendingCovers(db, init, b);
      RunKeepsValid(db, init);
      if ResetsBudget(e, b) {
        ResetGap(Run(db, init), e, b);
      } else {
        GapStep(Run(db, init), e, b);
      }
    }
  }

  /** Every reset of b meets no live reservation on it. */
  ghost predicate QuietResets(db: Db, es: seq<Event>, b: Id) {
    es != [] ==>
      var init, e := es[..|es| - 1], es[|es| - 1];
      QuietResets(db, init, b) && (ResetsBudget(e, b) ==> Reserved(Run(db, init).holds, b) == 0.0)
  }

  /** With atomic settlements and quiet resets nothing is hidden. */
  lemma {:induction false} QuietMeansCovered(db: Db, es: seq<Event>, b: Id)
    requires Valid(db) && b in db.rows && 0.0 <= Gap(db, b) && Atomic(es) && QuietResets(db, es, b)
    ensures Uncovered(db, es, b) == 0.0
  {
    if es != [] {
      var init := es[..|es| - 1];
      QuietMeansCovered(db, init, b);
      RunKeepsValid(db, init);
      AtomicDrift(Run(db, init), es[|es| - 1], b);
    }
  }
}
