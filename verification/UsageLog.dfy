/**
  Usage records: what settlements write, what pruning keeps, and how the alert
  service's period sum relates to the usage column.
 */
module UsageLog {
  import opened Model
  import opened Hierarchy
  import opened BucketFill
  import opened Database
  import opened PendingUsage

  function Total(records: seq<Record>): real {
    if records == [] then 0.0 else Total(records[..|records| - 1]) + records[|records| - 1].cost
  }

  /** GetCurrentPeriodUsage. */
  function SumSince(records: seq<Record>, start: nat): real {
    if records == [] then 0.0
    else
      var r := records[|records| - 1];
      SumSince(records[..|records| - 1], start) + if start <= r.at then r.cost else 0.0
  }

  /** A record counts from the very start of the period on. */
  lemma SumSinceStart(records: seq<Record>, r: Record, start: nat)
    ensures SumSince(records + [r], start) == SumSince(records, start) + if r.at < start then 0.0 else r.cost
  {
    assert (records + [r])[..|records|] == records;
  }

  ghost function PeriodUsage(db: Db, b: Id): real
    requires b in db.rows && b in db.log
  {
    SumSince(db.log[b], db.rows[b].periodStart)
  }

  // ----- What a run writes -------------------------------------------------

  /** The record an event writes for budget b, if any. */
  ghost function WrittenBy(db: Db, e: Event, b: Id): seq<Record> {
    if !Legal(db, e) then []
    else
      match e
      case DoSettle(r, cost, now) =>
        (match FirstHold(db.holds, r)
         case None => []
         case Some(h) =>
           var path := Path(db.rows, h.budget);
           if b in Ids(path) then [Record(r, ChargeFor(path, cost, b), now)] else [])
      case DoCommit(s, cost, now) =>
        if b in Ids(s.path) then [Record(s.first.request, ChargeFor(s.path, cost, b), now)] else []
      case _ => []
  }

  /** Records written for b before its last reset of the run. */
  ghost function Older(db: Db, es: seq<Event>, b: Id): seq<Record> {
    if es == [] then []
    else
      var init, e := es[..|es| - 1], es[|es| - 1];
      if ResetsBudget(e, b) then Older(db, init, b) + Current(db, init, b) else Older(db, init, b)
  }

  /** Records written for b since its last reset, or since the start of the run. */
  ghost function Current(db: Db, es: seq<Event>, b: Id): seq<Record> {
    if es == [] then []
    else
      var init, e := es[..|es| - 1], es[|es| - 1];
      if ResetsBudget(e, b) then [] else Current(db, init, b) + WrittenBy(Run(db, init), e, b)
  }

  /** A budget as CreateBudget leaves it. */
  ghost predicate NewBudget(db: Db, b: Id) {
    b in db.rows && db.rows[b].usage == 0.0 && b in db.log && db.log[b] == []
  }

  lemma NewestAppend(records: seq<Record>, more: seq<Record>)
    requires |more| <= 1
    ensures Newest(Newest(records) + more) == Newest(records + more)
  {
    if more == [] {
      assert records + more == records && Newest(records) + more == Newest(records);
    } else if |records| >= RETAINED {
      var cut := |records| - RETAINED;
      assert Newest(records) == records[cut..];
      assert (records + more)[cut + 1..] == (records[cut..] + more)[1..];
    }
  }

  lemma LogStep(db: Db, e: Event, b: Id)
    requires Valid(db) && b in db.rows && |db.log[b]| <= RETAINED
    ensures b in Step(db, e).log && b in Step(db, e).rows
    ensures Step(db, e).log[b] == Newest(db.log[b] + WrittenBy(db, e, b))
    ensures |WrittenBy(db, e, b)| <= 1
    ensures e.DoReset? ==> WrittenBy(db, e, b) == []
  {
    StepKeepsValid(db, e);
    assert db.log[b] + [] == db.log[b];
    if Legal(db, e) && e.DoSettle? && FirstHold(db.holds, e.request).Some? {
      PathRows(db.rows, FirstHold(db.holds, e.request).value.budget);
    }
  }

  /** The table always holds the newest 30 (or fewer) of all records ever written. */
  lemma {:induction false} LogIsNewest(db: Db, es: seq<Event>, b: Id)
    requires Valid(db) && NewBudget(db, b)
    ensures b in Run(db, es).log
    ensures Run(db, es).log[b] == Newest(Older(db, es, b) + Current(db, es, b))
    ensures var all := Older(db, es, b) + Current(db, es, b);
            Run(db, es).log[b] == if |all| <= 30 then all else all[|all| - 30..]
  {
    if es != [] {
      var init, e := es[..|es| - 1], es[|es| - 1];
      LogIsNewest(db, init, b);
      RunKeepsValid(db, init);
      LogStep(Run(db, init), e, b);
      NewestAppend(Older(db, init, b) + Current(db, init, b), WrittenBy(Run(db, init), e, b));
      AllWritten(db, es, b);
    }
  }

  /** A reset moves the boundary between older and current records, and writes none. */
  lemma AllWritten(db: Db, es: seq<Event>, b: Id)
    requires es != []
    ensures var init := es[..|es| - 1];
            Older(db, es, b) + Current(db, es, b) ==
              Older(db, init, b) + Current(db, init, b) + WrittenBy(Run(db, init), es[|es| - 1], b)
  {
  }

  lemma {:induction false} TotalConcat(xs: seq<Record>, ys: seq<Record>)
    ensures Total(xs + ys) == Total(xs) + Total(ys)
  {
    if ys == [] {
      assert xs + ys == xs;
    } else {
      assert (xs + ys)[..|xs + ys| - 1] == xs + ys[..|ys| - 1];
      TotalConcat(xs, ys[..|ys| - 1]);
    }
  }

  lemma UsageMatchesRecord(db: Db, e: Event, b: Id)
    requires Valid(db) && b in db.rows
    ensures b in Step(db, e).rows
    ensures !ResetsBudget(e, b) ==> Step(db, e).rows[b].usage == db.rows[b].usage + Total(WrittenBy(db, e, b))
    ensures ResetsBudget(e, b) ==> Step(db, e).rows[b].usage == 0.0
  {
    StepKeepsValid(db, e);
    if Legal(db, e) {
      match e
      case DoSettle(r, cost, now) =>
        if FirstHold(db.holds, r).Some? {
          var path := Path(db.rows, FirstHold(db.holds, r).value.budget);
          SettleEffect(db, r, cost, now, b);
          TotalOfRecord(path, r, cost, now, b);
        }
      case DoCommit(s, cost, now) => TotalOfRecord(s.path, s.first.request, cost, now, b);
      case _ =>
    }
  }

  lemma TotalOfRecord(path: seq<Budget>, r: RequestId, cost: real, now: nat, b: Id)
    ensures Total([Record(r, ChargeFor(path, cost, b), now)]) == ChargeFor(path, cost, b)
    ensures b !in Ids(path) ==> ChargeFor(path, cost, b) == 0.0
  {
    var rs := [Record(r, ChargeFor(path, cost, b), now)];
    assert rs[..0] == [];
    if b !in Ids(path) {
      forall i | 0 <= i < |path|
        ensures path[i].id != b
      {
        assert Ids(path)[i] in Ids(path);
      }
      ChargeForAbsent(path, cost, b);
    }
  }

  /** The usage column is the sum of all records written since the last reset, in every run. */
  lemma {:induction false} UsageIsSumOfRecords(db: Db, es: seq<Event>, b: Id)
    requires Valid(db) && NewBudget(db, b)
    ensures b in Run(db, es).rows
    ensures Run(db, es).rows[b].usage == Total(Current(db, es, b))
  {
    if es != [] {
      var init, e := es[..|es| - 1], es[|es| - 1];
      UsageIsSumOfRecords(db, init, b);
      RunKeepsValid(db, init);
      UsageMatchesRecord(Run(db, init), e, b);
      TotalConcat(Current(db, init, b), WrittenBy(Run(db, init), e, b));
    }
  }

  // ----- What the alert service reads --------------------------------------

  ghost function Clock(start: nat, es: seq<Event>): nat {
    if es == [] then start
    else if es[|es| - 1].DoReserve? then Clock(start, es[..|es| - 1])
    else es[|es| - 1].now
  }

  /** Transactions that stamp a row run at strictly increasing times. */
  ghost predicate TimeAdvances(start: nat, es: seq<Event>) {
    es != [] ==>
      && TimeAdvances(start, es[..|es| - 1])
      && (es[|es| - 1].DoReserve? || Clock(start, es[..|es| - 1]) < es[|es| - 1].now)
  }

  lemma {:induction false} RecordTimes(db: Db, es: seq<Event>, b: Id, start: nat)
    requires Valid(db) && NewBudget(db, b) && db.rows[b].periodStart <= start && TimeAdvances(start, es)
    ensures b in Run(db, es).rows
    ensures var p := Run(db, es).rows[b].periodStart;
            && p <= Clock(start, es)
            && (forall r :: r in Older(db, es, b) ==> r.at < p)
            && (forall r :: r in Current(db, es, b) ==> p <= r.at <= Clock(start, es) && 0.0 <= r.cost)
  {
    if es != [] {
      var init, e := es[..|es| - 1], es[|es| - 1];
      RecordTimes(db, init, b, start);
      RunKeepsValid(db, init);
      RunKeepsValid(db, es);
      RecordOfStep(Run(db, init), e, b);
    }
  }

  lemma RecordOfStep(db: Db, e: Event, b: Id)
    requires Valid(db) && b in db.rows
    ensures b in Step(db, e).rows
    ensures Step(db, e).rows[b].periodStart == if ResetsBudget(e, b) then e.now else db.rows[b].periodStart
    ensures forall r :: r in WrittenBy(db, e, b) ==> !e.DoReserve? && r.at == e.now && 0.0 <= r.cost
  {
    StepKeepsValid(db, e);
    WrittenFacts(db, e, b);
  }

  lemma WrittenFacts(db: Db, e: Event, b: Id)
    requires Valid(db)
    ensures forall r :: r in WrittenBy(db, e, b) ==> !e.DoReserve? && r.at == e.now && 0.0 <= r.cost
  {
    if Legal(db, e) {
      match e
      case DoCommit(s, cost, _) => ChargeForBounds(s.path, cost, b);
      case DoSettle(r, cost, _) =>
        if FirstHold(db.holds, r).Some? {
          PathRows(db.rows, FirstHold(db.holds, r).value.budget);
          ChargeForBounds(Path(db.rows, FirstHold(db.holds, r).value.budget), cost, b);
        }
      case _ =>
    }
  }

  ghost predicate Ascending(records: seq<Record>) {
    forall i, j :: 0 <= i < j < |records| ==> records[i].at < records[j].at
  }

  /** When stamps follow commit order, the records lie in the order of their stamps. */
  lemma {:induction false} RecordsAscend(db: Db, es: seq<Event>, b: Id, start: nat)
    requires Valid(db) && NewBudget(db, b) && db.rows[b].periodStart <= start && TimeAdvances(start, es)
    ensures Ascending(Older(db, es, b) + Current(db, es, b))
    ensures forall r :: r in Older(db, es, b) + Current(db, es, b) ==> r.at <= Clock(start, es)
  {
    if es != [] {
      var init, e := es[..|es| - 1], es[|es| - 1];
      RecordsAscend(db, init, b, start);
      RunKeepsValid(db, init);
      RecordOfStep(Run(db, init), e, b);
      LogSizes(db, init, b);
      LogStep(Run(db, init), e, b);
      AllWritten(db, es, b);
      AscendingAppend(Older(db, init, b) + Current(db, init, b), WrittenBy(Run(db, init), e, b), Clock(start, init),
        Clock(start, es));
    }
  }

  lemma AscendingAppend(records: seq<Record>, more: seq<Record>, before: nat, after: nat)
    requires Ascending(records) && |more| <= 1 && before <= after
    requires forall r :: r in records ==> r.at <= before
    requires forall r :: r in more ==> before < r.at <= after
    ensures Ascending(records + more) && forall r :: r in records + more ==> r.at <= after
  {
    if |more| == 1 {
      assert more[0] in more;
      assert forall i :: 0 <= i < |records| ==> records[i] in records;
    }
  }

  lemma LogSizes(db: Db, es: seq<Event>, b: Id)
    requires Valid(db) && NewBudget(db, b)
    ensures b in Run(db, es).log && |Run(db, es).log[b]| <= RETAINED
  {
    LogIsNewest(db, es, b);
  }

  /**
    Then the table holds the newest records by their stamps, as the pruning query orders
    them: every record that was dropped is older than every record that is kept.
   */
  lemma LogIsNewestByStamp(db: Db, es: seq<Event>, b: Id, start: nat)
    requires Valid(db) && NewBudget(db, b) && db.rows[b].periodStart <= start && TimeAdvances(start, es)
    ensures b in Run(db, es).log
    ensures var all, kept := Older(db, es, b) + Current(db, es, b), Run(db, es).log[b];
            && |kept| == (if |all| <= 30 then |all| else 30)
            && (forall r :: r in kept ==> r in all)
            && forall x, y :: x in all && x !in kept && y in kept ==> x.at < y.at
  {
    LogIsNewest(db, es, b);
    RecordsAscend(db, es, b, start);
    NewestAreLatest(Older(db, es, b) + Current(db, es, b));
  }

  lemma NewestAreLatest(all: seq<Record>)
    requires Ascending(all)
    ensures forall r :: r in Newest(all) ==> r in all
    ensures forall x, y :: x in all && x !in Newest(all) && y in Newest(all) ==> x.at < y.at
  {
    var kept := Newest(all);
    var cut := |all| - |kept|;
    forall i | cut <= i < |all|
      ensures all[i] in kept
    {
      assert kept[i - cut] == all[i];
    }
    forall x, y | x in all && x !in kept && y in kept
      ensures x.at < y.at
    {
      var i :| 0 <= i < |all| && all[i] == x;
      var j :| 0 <= j < |kept| && kept[j] == y;
      assert all[cut + j] == y;
    }
  }

  lemma {:induction false} SumSinceSplit(xs: seq<Record>, ys: seq<Record>, start: nat)
    requires forall r :: r in xs ==> r.at < start
    requires forall r :: r in ys ==> start <= r.at
    ensures SumSince(xs + ys, start) == Total(ys)
  {
    var all := xs + ys;
    if ys != [] {
      assert all[..|all| - 1] == xs + ys[..|ys| - 1];
      assert ys[|ys| - 1] in ys;
      SumSinceSplit(xs, ys[..|ys| - 1], start);
    } else if xs != [] {
      assert all == xs;
      assert xs[..|xs| - 1] + [] == xs[..|xs| - 1];
      assert xs[|xs| - 1] in xs;
      SumSinceSplit(xs[..|xs| - 1], [], start);
    }
  }

  lemma {:induction false} TotalNonNegative(xs: seq<Record>)
    requires forall r :: r in xs ==> 0.0 <= r.cost
    ensures 0.0 <= Total(xs)
  {
    if xs != [] {
      assert xs[|xs| - 1] in xs;
      TotalNonNegative(xs[..|xs| - 1]);
    }
  }

  /** Pruning can only lose records of the period once more than 30 fall into it. */
  lemma NewestSum(xs: seq<Record>, ys: seq<Record>, start: nat)
    requires forall r :: r in xs ==> r.at < start
    requires forall r :: r in ys ==> start <= r.at && 0.0 <= r.cost
    ensures SumSince(Newest(xs + ys), start) <= Total(ys)
    ensures |ys| <= RETAINED ==> SumSince(Newest(xs + ys), start) == Total(ys)
  {
    var all := xs + ys;
    if |all| <= RETAINED {
      SumSinceSplit(xs, ys, start);
    } else {
      var cut := |all| - RETAINED;
      if cut <= |xs| {
        assert Newest(all) == xs[cut..] + ys;
        SumSinceSplit(xs[cut..], ys, start);
      } else {
        var lost, kept := ys[..cut - |xs|], ys[cut - |xs|..];
        assert Newest(all) == [] + kept;
        assert ys == lost + kept;
        SumSinceSplit([], kept, start);
        TotalConcat(lost, kept);
        TotalNonNegative(lost);
      }
    }
  }

  /**
    The period usage read for alerts never exceeds the usage column, and equals it
    while at most 30 records have been written in the period.
   */
  lemma PeriodUsageBelowUsage(db: Db, es: seq<Event>, b: Id, start: nat)
    requires Valid(db) && NewBudget(db, b) && db.rows[b].periodStart <= start && TimeAdvances(start, es)
    ensures b in Run(db, es).rows && b in Run(db, es).log
    ensures PeriodUsage(Run(db, es), b) <= Run(db, es).rows[b].usage
    ensures |Current(db, es, b)| <= 30 ==> PeriodUsage(Run(db, es), b) == Run(db, es).rows[b].usage
  {
    LogIsNewest(db, es, b);
    UsageIsSumOfRecords(db, es, b);
    RecordTimes(db, es, b, start);
    NewestSum(Older(db, es, b), Current(db, es, b), Run(db, es).rows[b].periodStart);
  }
}
