/**
  The committed database state and one function per transaction. A run is any
  sequence of committed transactions, in the order in which they commit.
 */
module Database {
  import opened Model
  import opened Hierarchy
  import opened BucketFill
  import opened Admission

  datatype Db = Db(
    rows: map<Id, Budget>,
    holds: seq<Hold>,            // request_reservations, in creation order
    log: map<Id, seq<Record>>)   // usage_records per budget, oldest first

  // ----- Reservations ------------------------------------------------------

  /** Which reservations a statement deletes. */
  datatype Pick = OfRequest(request: RequestId) | ExpiredBy(now: nat)

  predicate Picks(p: Pick, h: Hold) {
    match p
    case OfRequest(r) => h.request == r
    case ExpiredBy(now) => h.expires <= now
  }

  function Taken(holds: seq<Hold>, p: Pick): seq<Hold> {
    if holds == [] then []
    else
      var h := holds[|holds| - 1];
      Taken(holds[..|holds| - 1], p) + if Picks(p, h) then [h] else []
  }

  function Kept(holds: seq<Hold>, p: Pick): seq<Hold> {
    if holds == [] then []
    else
      var h := holds[|holds| - 1];
      Kept(holds[..|holds| - 1], p) + if Picks(p, h) then [] else [h]
  }

  /** Total estimate reserved on budget b. */
  function Reserved(holds: seq<Hold>, b: Id): real {
    if holds == [] then 0.0
    else
      var h := holds[|holds| - 1];
      Reserved(holds[..|holds| - 1], b) + if h.budget == b then h.estimate else 0.0
  }

  /** What request r has reserved on budget b. */
  function HeldFor(holds: seq<Hold>, r: RequestId, b: Id): real {
    Reserved(Taken(holds, OfRequest(r)), b)
  }

  predicate HasHold(holds: seq<Hold>, r: RequestId, b: Id) {
    exists h :: h in holds && h.request == r && h.budget == b
  }

  /** The oldest reservation of a request (GetReservationByRequestID). */
  function FirstHold(holds: seq<Hold>, r: RequestId): (first: Option<Hold>)
    ensures first.Some? ==> first.value in holds && first.value.request == r
    ensures first.None? ==> forall h :: h in holds ==> h.request != r
  {
    if holds == [] then None
    else
      var init, h := holds[..|holds| - 1], holds[|holds| - 1];
      assert holds == init + [h];
      var earlier := FirstHold(init, r);
      if earlier.Some? then earlier
      else if h.request == r then Some(h)
      else None
  }

  /** UNIQUE (budget_id, request_id). */
  ghost predicate UniqueHolds(holds: seq<Hold>) {
    forall i, j :: 0 <= i < j < |holds| ==>
      holds[i].budget != holds[j].budget || holds[i].request != holds[j].request
  }

  function NewHolds(bs: seq<Budget>, r: RequestId, estimate: real, expires: nat): (hs: seq<Hold>)
    ensures |hs| == |bs|
    ensures forall i :: 0 <= i < |bs| ==> hs[i] == Hold(bs[i].id, r, estimate, expires)
  {
    seq(|bs|, i requires 0 <= i < |bs| => Hold(bs[i].id, r, estimate, expires))
  }

  // ----- Transactions ------------------------------------------------------

  /** The insert of a reservation would violate the unique key, aborting the transaction. */
  predicate Clashes(holds: seq<Hold>, bs: seq<Budget>, r: RequestId) {
    exists h :: h in holds && h.request == r && h.budget in Ids(bs)
  }

  predicate Reserves(db: Db, bs: seq<Budget>, estimate: real, r: RequestId) {
    Admits(bs, estimate) && !Clashes(db.holds, bs, r)
  }

  function HeldRows(rows: map<Id, Budget>, bs: seq<Budget>, estimate: real): map<Id, Budget> {
    map i | i in rows :: if i in Ids(bs) then rows[i].(pending := rows[i].pending + estimate) else rows[i]
  }

  /** CheckAndReserveBudget on the sorted matched rows: reserve on all of them or none. */
  function Reserve(db: Db, bs: seq<Budget>, estimate: real, r: RequestId, expires: nat): Db {
    if !Reserves(db, bs, estimate, r) then db
    else Db(HeldRows(db.rows, bs, estimate), db.holds + NewHolds(bs, r, estimate, expires), db.log)
  }

  /** What a settlement reads before its transaction begins. */
  datatype Snapshot = Snapshot(first: Hold, path: seq<Budget>)

  function Release(pending: real, estimate: real): real {
    Max0(pending - estimate)
  }

  const RETAINED := 30

  /** A budget keeps its newest usage records only. */
  function Newest(records: seq<Record>): seq<Record> {
    if |records| <= RETAINED then records else records[|records| - RETAINED..]
  }

  function ChargedRow(b: Budget, path: seq<Budget>, cost: real): Budget {
    var c := ChargeFor(path, cost, b.id);
    b.(usage := b.usage + c, version := if c > 0.0 then b.version + 1 else b.version)
  }

  function CommitRow(b: Budget, s: Snapshot, cost: real): Budget {
    var charged := ChargedRow(b, s.path, cost);
    if b.id == s.first.budget then charged.(pending := Release(b.pending, s.first.estimate)) else charged
  }

  /** Every budget on the path gets a record, even one of zero cost. */
  function Logged(log: map<Id, seq<Record>>, path: seq<Budget>, r: RequestId, cost: real,
                  now: nat): map<Id, seq<Record>> {
    map i | i in log ::
      if i in Ids(path) then Newest(log[i] + [Record(r, ChargeFor(path, cost, i), now)]) else log[i]
  }

  /** The transaction of DecrementBudgets: charge, record, delete the holds, release. */
  function Commit(db: Db, s: Snapshot, cost: real, now: nat): Db {
    Db(map i | i in db.rows :: CommitRow(db.rows[i], s, cost),
       Kept(db.holds, OfRequest(s.first.request)),
       Logged(db.log, s.path, s.first.request, cost, now))
  }

  /** A settlement whose reads and transaction run without interference. */
  function Settle(db: Db, r: RequestId, cost: real, now: nat): Db {
    match FirstHold(db.holds, r)
    case None => db
    case Some(h) => Commit(db, Snapshot(h, Path(db.rows, h.budget)), cost, now)
  }

  function Budgets(holds: seq<Hold>): set<Id> {
    set h | h in holds :: h.budget
  }

  /** Expired estimates grouped by budget. */
  function Totals(expired: seq<Hold>): map<Id, real> {
    map b | b in Budgets(expired) :: Reserved(expired, b)
  }

  function ReleasedRows(rows: map<Id, Budget>, totals: map<Id, real>): map<Id, Budget> {
    map i | i in rows ::
      if i in totals then rows[i].(pending := Release(rows[i].pending, totals[i])) else rows[i]
  }

  /** The delete and the releases of a cleanup, given the totals its first statement summed. */
  function Sweep(db: Db, totals: map<Id, real>, now: nat): Db {
    db.(rows := ReleasedRows(db.rows, totals), holds := Kept(db.holds, ExpiredBy(now)))
  }

  /** CleanupExpiredReservations without interference between its statements. */
  function Cleanup(db: Db, now: nat): Db {
    Sweep(db, Totals(Taken(db.holds, ExpiredBy(now))), now)
  }

  function ResetRow(b: Budget, now: nat): Budget {
    b.(usage := 0.0, pending := 0.0, periodStart := now, version := b.version + 1)
  }

  predicate PeriodOver(b: Budget, now: nat) {
    b.config.periodLength.Some? && b.periodStart + b.config.periodLength.value <= now
  }

  /** ResetBudgetUsage and ResetExpiredBudgets: reservations are left alone. */
  function Reset(db: Db, which: set<Id>, now: nat): Db {
    db.(rows := map i | i in db.rows :: if i in which then ResetRow(db.rows[i], now) else db.rows[i])
  }

  function Overdue(rows: map<Id, Budget>, now: nat): set<Id> {
    set i | i in rows && PeriodOver(rows[i], now)
  }

  // ----- Runs --------------------------------------------------------------

  datatype Event =
    | DoReserve(matched: seq<Id>, estimate: real, request: RequestId, expires: nat)
    | DoSettle(request: RequestId, cost: real, now: nat)
    | DoCommit(snapshot: Snapshot, cost: real, now: nat)
    | DoCleanup(now: nat)
    | DoReset(which: set<Id>, now: nat)

  predicate Enabled(b: Budget) {
    b.config.enabled && b.status == Approved
  }

  /** What the statements of a transaction guarantee about their own inputs. */
  ghost predicate Legal(db: Db, e: Event) {
    match e
    case DoReserve(matched, estimate, _, _) =>
      && 0.0 <= estimate
      && Distinct(matched)
      && forall i :: 0 <= i < |matched| ==> matched[i] in db.rows && Enabled(db.rows[matched[i]])
    case DoSettle(_, cost, _) => 0.0 <= cost
    case DoCommit(s, cost, _) =>
      && 0.0 <= cost
      && 0.0 <= s.first.estimate
      && Distinct(Ids(s.path))
      && forall i :: i in Ids(s.path) ==> i in db.rows
    case DoCleanup(_) => true
    case DoReset(_, _) => true
  }

  function MatchedRows(db: Db, matched: seq<Id>): seq<Budget>
    requires forall i :: 0 <= i < |matched| ==> matched[i] in db.rows
  {
    Sorted(RowsOf(db.rows, matched))
  }

  /** An event whose inputs no transaction can have changes nothing. */
  ghost function Step(db: Db, e: Event): Db {
    if !Legal(db, e) then db
    else
      match e
      case DoReserve(matched, estimate, r, expires) =>
        if matched == [] then db else Reserve(db, MatchedRows(db, matched), estimate, r, expires)
      case DoSettle(r, cost, now) => Settle(db, r, cost, now)
      case DoCommit(s, cost, now) => Commit(db, s, cost, now)
      case DoCleanup(now) => Cleanup(db, now)
      case DoReset(which, now) => Reset(db, which, now)
  }

  ghost function Run(db: Db, es: seq<Event>): Db {
    if es == [] then db else Step(Run(db, es[..|es| - 1]), es[|es| - 1])
  }

  /** The same run with every settlement's reads and transaction joined. */
  ghost predicate Atomic(es: seq<Event>) {
    forall i :: 0 <= i < |es| ==> !es[i].DoCommit?
  }

  ghost predicate WithinPeriod(es: seq<Event>) {
    forall i :: 0 <= i < |es| ==> !es[i].DoReset?
  }

  // ----- The invariant of every run ----------------------------------------

  ghost predicate Valid(db: Db) {
    && Keyed(db.rows)
    && db.log.Keys == db.rows.Keys
    && UniqueHolds(db.holds)
    && forall h :: h in db.holds ==> h.budget in db.rows && 0.0 <= h.estimate
  }

  lemma {:induction false} FilterFacts(holds: seq<Hold>, p: Pick)
    ensures forall h :: h in Kept(holds, p) <==> h in holds && !Picks(p, h)
    ensures forall h :: h in Taken(holds, p) <==> h in holds && Picks(p, h)
  {
    if holds != [] {
      FilterFacts(holds[..|holds| - 1], p);
      assert holds == holds[..|holds| - 1] + [holds[|holds| - 1]];
    }
  }

  lemma {:induction false} KeptUnique(holds: seq<Hold>, p: Pick)
    requires UniqueHolds(holds)
    ensures UniqueHolds(Kept(holds, p))
  {
    if holds != [] {
      var init, h := holds[..|holds| - 1], holds[|holds| - 1];
      KeptUnique(init, p);
      FilterFacts(init, p);
      forall g | g in Kept(init, p)
        ensures g.budget != h.budget || g.request != h.request
      {
        var i :| 0 <= i < |init| && init[i] == g;
      }
    }
  }

  lemma {:induction false} ReservedConcat(holds: seq<Hold>, more: seq<Hold>, b: Id)
    ensures Reserved(holds + more, b) == Reserved(holds, b) + Reserved(more, b)
  {
    if more == [] {
      assert holds + more == holds;
    } else {
      var all := holds + more;
      assert all[..|all| - 1] == holds + more[..|more| - 1];
      ReservedConcat(holds, more[..|more| - 1], b);
    }
  }

  lemma {:induction false} ReservedSplit(holds: seq<Hold>, p: Pick, b: Id)
    ensures Reserved(holds, b) == Reserved(Kept(holds, p), b) + Reserved(Taken(holds, p), b)
  {
    if holds != [] {
      var init, h := holds[..|holds| - 1], holds[|holds| - 1];
      ReservedSplit(init, p, b);
      Appended(Kept(init, p), h, b);
      Appended(Taken(init, p), h, b);
    }
  }

  lemma Appended(holds: seq<Hold>, h: Hold, b: Id)
    ensures Reserved(holds + [h], b) == Reserved(holds, b) + if h.budget == b then h.estimate else 0.0
    ensures holds + [] == holds
  {
    assert (holds + [h])[..|holds|] == holds;
  }

  lemma TakenLast(taken: seq<Hold>, h: Hold, q: Pick, b: Id)
    ensures Reserved(taken + (if Picks(q, h) then [h] else []), b) ==
              Reserved(taken, b) + if Picks(q, h) && h.budget == b then h.estimate else 0.0
  {
    Appended(taken, h, b);
  }

  lemma {:induction false} TakenAllOrNone(holds: seq<Hold>, q: Pick, b: Id, all: bool)
    requires forall h :: h in holds && h.budget == b ==> Picks(q, h) == all
    ensures Reserved(Taken(holds, q), b) == if all then Reserved(holds, b) else 0.0
  {
    if holds != [] {
      var init, h := holds[..|holds| - 1], holds[|holds| - 1];
      assert h in holds;
      TakenAllOrNone(init, q, b, all);
      TakenLast(Taken(init, q), h, q, b);
    }
  }

  lemma {:induction false} ReservedNew(bs: seq<Budget>, r: RequestId, estimate: real, expires: nat, b: Id)
    requires Distinct(Ids(bs))
    ensures Reserved(NewHolds(bs, r, estimate, expires), b) == if b in Ids(bs) then estimate else 0.0
  {
    var hs := NewHolds(bs, r, estimate, expires);
    if bs != [] {
      var init := bs[..|bs| - 1];
      assert hs[..|bs| - 1] == NewHolds(init, r, estimate, expires);
      assert Ids(bs) == Ids(init) + [bs[|bs| - 1].id];
      ReservedNew(init, r, estimate, expires, b);
      assert bs[|bs| - 1].id !in Ids(init) by {
        assert forall k :: 0 <= k < |init| ==> Ids(bs)[k] == Ids(init)[k];
      }
    }
  }

  lemma {:induction false} ReservedAbsent(holds: seq<Hold>, b: Id)
    requires forall h :: h in holds ==> h.budget != b
    ensures Reserved(holds, b) == 0.0
  {
    if holds != [] {
      ReservedAbsent(holds[..|holds| - 1], b);
      assert holds[|holds| - 1] in holds;
    }
  }

  lemma {:induction false} ReservedNonNegative(holds: seq<Hold>, b: Id)
    requires forall h :: h in holds ==> 0.0 <= h.estimate
    ensures 0.0 <= Reserved(holds, b)
  {
    if holds != [] {
      ReservedNonNegative(holds[..|holds| - 1], b);
      assert holds[|holds| - 1] in holds;
    }
  }

  lemma HeldForNone(holds: seq<Hold>, r: RequestId, b: Id)
    requires !HasHold(holds, r, b)
    ensures HeldFor(holds, r, b) == 0.0
  {
    FilterFacts(holds, OfRequest(r));
    ReservedAbsent(Taken(holds, OfRequest(r)), b);
  }

  lemma HeldForSnoc(holds: seq<Hold>, last: Hold, r: RequestId, b: Id)
    ensures HeldFor(holds + [last], r, b) ==
              HeldFor(holds, r, b) + if last.request == r && last.budget == b then last.estimate else 0.0
  {
    assert (holds + [last])[..|holds|] == holds;
    TakenLast(Taken(holds, OfRequest(r)), last, OfRequest(r), b);
  }

  /** A request's hold on a budget is that one row's estimate, or nothing. */
  lemma {:induction false} HeldForIs(holds: seq<Hold>, h: Hold)
    requires UniqueHolds(holds) && h in holds
    ensures HeldFor(holds, h.request, h.budget) == h.estimate
  {
    var init, last := holds[..|holds| - 1], holds[|holds| - 1];
    assert holds == init + [last];
    LastIsUnique(init, last);
    HeldForSnoc(init, last, h.request, h.budget);
    if h in init {
      HeldForIs(init, h);
    } else {
      HeldForNone(init, h.request, h.budget);
    }
  }

  lemma LastIsUnique(init: seq<Hold>, last: Hold)
    requires UniqueHolds(init + [last])
    ensures UniqueHolds(init)
    ensures forall g :: g in init ==> g.budget != last.budget || g.request != last.request
  {
    var holds := init + [last];
    forall i, j | 0 <= i < j < |init|
      ensures init[i].budget != init[j].budget || init[i].request != init[j].request
    {
      assert holds[i] == init[i] && holds[j] == init[j];
    }
    forall g | g in init
      ensures g.budget != last.budget || g.request != last.request
    {
      var i :| 0 <= i < |init| && init[i] == g;
      assert holds[i] == g && holds[|init|] == last;
    }
  }

  /** The rows a reservation locks. */
  lemma MatchedFacts(db: Db, matched: seq<Id>)
    requires Keyed(db.rows) && Distinct(matched)
    requires forall i :: 0 <= i < |matched| ==> matched[i] in db.rows
    ensures var bs := MatchedRows(db, matched);
            && Distinct(Ids(bs))
            && (forall i :: i in Ids(bs) <==> i in matched)
            && (forall b :: b in bs ==> b.id in db.rows && db.rows[b.id] == b)
            && |bs| == |matched|
  {
    IdsOfRows(db.rows, matched);
    SortedDistinct(RowsOf(db.rows, matched));
    SortedIsPermutation(RowsOf(db.rows, matched));
  }

  lemma ReserveKeepsUnique(holds: seq<Hold>, bs: seq<Budget>, r: RequestId, estimate: real, expires: nat)
    requires UniqueHolds(holds) && Distinct(Ids(bs)) && !Clashes(holds, bs, r)
    ensures UniqueHolds(holds + NewHolds(bs, r, estimate, expires))
  {
    var hs := NewHolds(bs, r, estimate, expires);
    forall i, j | 0 <= i < |holds| && 0 <= j < |hs|
      ensures holds[i].budget != hs[j].budget || holds[i].request != hs[j].request
    {
      assert holds[i] in holds;
      assert Ids(bs)[j] == hs[j].budget;
    }
    forall i, j | 0 <= i < j < |hs|
      ensures hs[i].budget != hs[j].budget
    {
      assert Ids(bs)[i] != Ids(bs)[j];
    }
  }

  lemma ReserveKeepsValid(db: Db, matched: seq<Id>, estimate: real, r: RequestId, expires: nat)
    requires Valid(db) && Legal(db, DoReserve(matched, estimate, r, expires))
    ensures Valid(Reserve(db, MatchedRows(db, matched), estimate, r, expires))
  {
    var bs := MatchedRows(db, matched);
    MatchedFacts(db, matched);
    if Reserves(db, bs, estimate, r) {
      ReserveKeepsUnique(db.holds, bs, r, estimate, expires);
      var hs := NewHolds(bs, r, estimate, expires);
      forall h | h in hs
        ensures h.budget in db.rows && h.estimate == estimate
      {
        var k :| 0 <= k < |hs| && hs[k] == h;
        assert Ids(bs)[k] == h.budget;
      }
    }
  }

  lemma CommitKeepsValid(db: Db, s: Snapshot, cost: real, now: nat)
    requires Valid(db)
    ensures Valid(Commit(db, s, cost, now))
    ensures SameShape(db.rows, Commit(db, s, cost, now).rows)
  {
    FilterFacts(db.holds, OfRequest(s.first.request));
    KeptUnique(db.holds, OfRequest(s.first.request));
  }

  lemma CleanupKeepsValid(db: Db, now: nat)
    requires Valid(db)
    ensures Valid(Cleanup(db, now))
    ensures SameShape(db.rows, Cleanup(db, now).rows)
  {
    FilterFacts(db.holds, ExpiredBy(now));
    KeptUnique(db.holds, ExpiredBy(now));
  }

  lemma StepKeepsValid(db: Db, e: Event)
    requires Valid(db)
    ensures Valid(Step(db, e))
    ensures SameShape(db.rows, Step(db, e).rows)
  {
    if Legal(db, e) {
      match e
      case DoReserve(matched, estimate, r, expires) =>
        ReserveKeepsValid(db, matched, estimate, r, expires);
      case DoSettle(r, cost, now) =>
        match FirstHold(db.holds, r) {
          case None =>
          case Some(h) => CommitKeepsValid(db, Snapshot(h, Path(db.rows, h.budget)), cost, now);
        }
      case DoCommit(s, cost, now) => CommitKeepsValid(db, s, cost, now);
      case DoCleanup(now) => CleanupKeepsValid(db, now);
      case DoReset(_, _) =>
    }
  }

  lemma {:induction false} RunKeepsValid(db: Db, es: seq<Event>)
    requires Valid(db)
    ensures Valid(Run(db, es))
    ensures SameShape(db.rows, Run(db, es).rows)
  {
    if es != [] {
      RunKeepsValid(db, es[..|es| - 1]);
      StepKeepsValid(Run(db, es[..|es| - 1]), es[|es| - 1]);
    }
  }

  // ----- The effect of each transaction on one budget ----------------------

  lemma ReserveEffect(db: Db, matched: seq<Id>, estimate: real, r: RequestId, expires: nat, b: Id)
    requires Valid(db) && Legal(db, DoReserve(matched, estimate, r, expires)) && b in db.rows
    ensures var db' := Step(db, DoReserve(matched, estimate, r, expires));
            && db'.rows[b].usage == db.rows[b].usage
            && (db' == db ||
                var e := if b in matched then estimate else 0.0;
                && matched != []
                && Admits(MatchedRows(db, matched), estimate)
                && db'.rows[b].pending == db.rows[b].pending + e
                && Reserved(db'.holds, b) == Reserved(db.holds, b) + e)
  {
    var bs := MatchedRows(db, matched);
    MatchedFacts(db, matched);
    ReservedConcat(db.holds, NewHolds(bs, r, estimate, expires), b);
    ReservedNew(bs, r, estimate, expires, b);
  }

  lemma CommitEffect(db: Db, s: Snapshot, cost: real, now: nat, b: Id)
    requires Valid(db) && b in db.rows
    ensures var db' := Commit(db, s, cost, now);
            && db'.rows[b].usage == db.rows[b].usage + ChargeFor(s.path, cost, b)
            && db'.rows[b].pending ==
                 (if b == s.first.budget then Release(db.rows[b].pending, s.first.estimate) else db.rows[b].pending)
            && Reserved(db'.holds, b) == Reserved(db.holds, b) - HeldFor(db.holds, s.first.request, b)
  {
    ReservedSplit(db.holds, OfRequest(s.first.request), b);
  }

  lemma CleanupEffect(db: Db, now: nat, b: Id)
    requires Valid(db) && b in db.rows
    ensures var db', x := Cleanup(db, now), Reserved(Taken(db.holds, ExpiredBy(now)), b);
            && 0.0 <= x
            && db'.rows[b].usage == db.rows[b].usage
            && (db'.rows[b].pending == Release(db.rows[b].pending, x) || (x == 0.0 && db'.rows[b] == db.rows[b]))
            && Reserved(db'.holds, b) == Reserved(db.holds, b) - x
  {
    var expired := Taken(db.holds, ExpiredBy(now));
    ReservedSplit(db.holds, ExpiredBy(now), b);
    FilterFacts(db.holds, ExpiredBy(now));
    ReservedNonNegative(expired, b);
    if b !in Budgets(expired) {
      ReservedAbsent(expired, b);
    }
  }

  /** What a snapshot taken now looks like. */
  lemma SnapshotFacts(db: Db, r: RequestId)
    requires Valid(db) && FirstHold(db.holds, r).Some?
    ensures var h := FirstHold(db.holds, r).value;
            && h.budget in db.rows && 0.0 <= h.estimate
            && HeldFor(db.holds, r, h.budget) == h.estimate
            && Distinct(Ids(Path(db.rows, h.budget)))
            && forall i :: i in Ids(Path(db.rows, h.budget)) ==> i in db.rows
  {
    var h := FirstHold(db.holds, r).value;
    HeldForIs(db.holds, h);
    PathRows(db.rows, h.budget);
  }

  /** A settlement, seen from one budget. */
  lemma SettleEffect(db: Db, r: RequestId, cost: real, now: nat, b: Id)
    requires Valid(db) && b in db.rows && FirstHold(db.holds, r).Some?
    ensures var db', h := Settle(db, r, cost, now), FirstHold(db.holds, r).value;
            && b in db'.rows
            && db'.rows[b].usage == db.rows[b].usage + ChargeFor(Path(db.rows, h.budget), cost, b)
            && db'.rows[b].pending ==
                 (if b == h.budget then Release(db.rows[b].pending, h.estimate) else db.rows[b].pending)
            && Reserved(db'.holds, b) == Reserved(db.holds, b) - HeldFor(db.holds, r, b)
            && 0.0 <= HeldFor(db.holds, r, b)
            && (b == h.budget ==> HeldFor(db.holds, r, b) == h.estimate)
  {
    var h := FirstHold(db.holds, r).value;
    SnapshotFacts(db, r);
    CommitEffect(db, Snapshot(h, Path(db.rows, h.budget)), cost, now, b);
    FilterFacts(db.holds, OfRequest(r));
    ReservedNonNegative(Taken(db.holds, OfRequest(r)), b);
  }
}
