/**
  What admission, reservation, settlement and reset promise, stated in the columns of the
  tables alone.
 */
module Columns {
  import opened Model
  import opened Hierarchy
  import opened BucketFill
  import opened Admission
  import opened Database
  import opened Interleaving
  import opened PendingUsage

  // ----- Admission ---------------------------------------------------------

  /**
    A request is admitted exactly if every matched budget has the estimate left, or allows
    fallback and its parent is matched and has it left; level and isolation do not matter.
   */
  lemma AdmittedIff(db: Db, matched: seq<Id>, estimate: real)
    requires Keyed(db.rows) && Distinct(matched) && forall i :: i in matched ==> i in db.rows
    ensures Admits(MatchedRows(db, matched), estimate) <==>
              forall i :: i in matched ==>
                || db.rows[i].config.amount - db.rows[i].usage - db.rows[i].pending >= estimate
                || (db.rows[i].config.allowFallback &&
                    exists p :: p in matched && db.rows[i].config.parent == Some(p) &&
                      db.rows[p].config.amount - db.rows[p].usage - db.rows[p].pending >= estimate)
  {
    var bs := MatchedRows(db, matched);
    MatchedFacts(db, matched);
    forall i | i in matched
      ensures db.rows[i] in bs
      ensures Passes(bs, db.rows[i], estimate) <==>
                || db.rows[i].config.amount - db.rows[i].usage - db.rows[i].pending >= estimate
                || (db.rows[i].config.allowFallback &&
                    exists p :: p in matched && db.rows[i].config.parent == Some(p) &&
                      db.rows[p].config.amount - db.rows[p].usage - db.rows[p].pending >= estimate)
    {
      MatchedRow(db, matched, i);
      RowPasses(db, matched, i, estimate);
    }
    forall b | b in bs
      ensures b.id in matched && db.rows[b.id] == b
    {
      InIds(bs, b.id);
    }
  }

  lemma MatchedRow(db: Db, matched: seq<Id>, i: Id)
    requires Keyed(db.rows) && Distinct(matched) && (forall j :: j in matched ==> j in db.rows) && i in matched
    ensures db.rows[i] in MatchedRows(db, matched)
  {
    MatchedFacts(db, matched);
    InIds(MatchedRows(db, matched), i);
  }

  lemma RowPasses(db: Db, matched: seq<Id>, i: Id, estimate: real)
    requires Keyed(db.rows) && Distinct(matched) && (forall j :: j in matched ==> j in db.rows) && i in matched
    ensures Passes(MatchedRows(db, matched), db.rows[i], estimate) <==>
              || db.rows[i].config.amount - db.rows[i].usage - db.rows[i].pending >= estimate
              || (db.rows[i].config.allowFallback &&
                  exists p :: p in matched && db.rows[i].config.parent == Some(p) &&
                    db.rows[p].config.amount - db.rows[p].usage - db.rows[p].pending >= estimate)
  {
    var bs := MatchedRows(db, matched);
    MatchedFacts(db, matched);
    if p :| p in matched && db.rows[i].config.parent == Some(p) && db.rows[p].Remaining() >= estimate {
      MatchedRow(db, matched, p);
      assert db.rows[p] in bs && db.rows[p].id == p;
    }
    if ParentFits(bs, db.rows[i], estimate) {
      var p :| p in bs && p.id == db.rows[i].config.parent.value && p.Remaining() >= estimate;
      InIds(bs, p.id);
      assert p.id in matched && db.rows[p.id] == p;
    }
  }

  /** The budget has neither the estimate left nor a matched parent to fall back to. */
  ghost predicate Short(db: Db, matched: seq<Id>, i: Id, estimate: real)
    requires (forall j :: j in matched ==> j in db.rows) && i in matched
  {
    && db.rows[i].config.amount - db.rows[i].usage - db.rows[i].pending < estimate
    && !(db.rows[i].config.allowFallback &&
         exists p :: p in matched && db.rows[i].config.parent == Some(p) &&
           db.rows[p].config.amount - db.rows[p].usage - db.rows[p].pending >= estimate)
  }

  function Rank(t: EntityType): nat {
    if t == User then 1 else if t == Team then 2 else 3
  }

  /**
    The limiter of a denied request: a lowest isolated budget that falls short, if there is
    an isolated one, else a highest budget that falls short; users count as lower than
    teams, teams as lower than organisations.
   */
  lemma LimiterIsShort(db: Db, matched: seq<Id>, estimate: real, limiter: Id, remaining: real)
    requires Keyed(db.rows) && Distinct(matched) && forall i :: i in matched ==> i in db.rows
    ensures Decided(MatchedRows(db, matched), estimate, Deny(limiter, remaining)) ==>
              && limiter in matched && Short(db, matched, limiter, estimate)
              && var row := db.rows[limiter];
                 forall i :: i in matched && Short(db, matched, i, estimate) ==>
                   if row.config.isolated
                   then db.rows[i].config.isolated ==> Rank(row.entity) <= Rank(db.rows[i].entity)
                   else !db.rows[i].config.isolated && Rank(db.rows[i].entity) <= Rank(row.entity)
  {
    var bs := MatchedRows(db, matched);
    if Decided(bs, estimate, Deny(limiter, remaining)) {
      var k: nat :| k < |bs| && DeniedAt(bs, estimate, k, limiter, remaining);
      RowInTable(db, matched, bs[k]);
      RowPasses(db, matched, limiter, estimate);
      forall i | i in matched && Short(db, matched, i, estimate)
        ensures if bs[k].config.isolated
                then db.rows[i].config.isolated ==> Rank(bs[k].entity) <= Rank(db.rows[i].entity)
                else !db.rows[i].config.isolated && Rank(db.rows[i].entity) <= Rank(bs[k].entity)
      {
        ShortBeside(db, matched, estimate, k, i);
      }
    }
  }

  lemma ShortBeside(db: Db, matched: seq<Id>, estimate: real, k: nat, i: Id)
    requires Keyed(db.rows) && Distinct(matched) && forall j :: j in matched ==> j in db.rows
    requires k < |MatchedRows(db, matched)| && Limits(MatchedRows(db, matched), estimate, k)
    requires i in matched && Short(db, matched, i, estimate)
    ensures var limiter := MatchedRows(db, matched)[k];
            if limiter.config.isolated
            then db.rows[i].config.isolated ==> Rank(limiter.entity) <= Rank(db.rows[i].entity)
            else !db.rows[i].config.isolated && Rank(db.rows[i].entity) <= Rank(limiter.entity)
  {
    var bs := MatchedRows(db, matched);
    RowPasses(db, matched, i, estimate);
    MatchedRow(db, matched, i);
    var j: nat :| j < |bs| && bs[j] == db.rows[i];
    if j < k {
      SortedLevels(RowsOf(db.rows, matched), j, k);
    } else if k < j {
      SortedLevels(RowsOf(db.rows, matched), k, j);
    }
  }

  /** The budget has less than the estimate left, and every matched budget above its level has it. */
  ghost predicate HighestShort(db: Db, matched: seq<Id>, i: Id, estimate: real)
    requires (forall j :: j in matched ==> j in db.rows) && i in matched
  {
    && db.rows[i].config.amount - db.rows[i].usage - db.rows[i].pending < estimate
    && forall j :: j in matched && Rank(db.rows[i].entity) < Rank(db.rows[j].entity) ==>
         db.rows[j].config.amount - db.rows[j].usage - db.rows[j].pending >= estimate
  }

  /**
    The answer to an admitted request: without a fallback every budget has the estimate
    left; with one, a highest budget without it has that parent, matched and with the
    estimate left. The figure is what some matched budget has left, and the least if none
    is overdrawn.
   */
  lemma AllowInColumns(db: Db, matched: seq<Id>, estimate: real, d: Decision)
    requires Keyed(db.rows) && Distinct(matched) && matched != [] && forall i :: i in matched ==> i in db.rows
    requires d.Allow? && Decided(MatchedRows(db, matched), estimate, d)
    ensures d.fallback.None? <==>
              forall i :: i in matched ==> db.rows[i].config.amount - db.rows[i].usage - db.rows[i].pending >= estimate
    ensures d.fallback.Some? ==>
              && d.fallback.value in matched
              && var p := db.rows[d.fallback.value];
                 && p.config.amount - p.usage - p.pending >= estimate
                 && exists i :: i in matched && HighestShort(db, matched, i, estimate) &&
                      db.rows[i].config.parent == d.fallback
    ensures exists i :: i in matched && d.remaining == db.rows[i].config.amount - db.rows[i].usage - db.rows[i].pending
    ensures (forall i :: i in matched ==> 0.0 <= db.rows[i].config.amount - db.rows[i].usage - db.rows[i].pending) ==>
              forall i :: i in matched ==>
                d.remaining <= db.rows[i].config.amount - db.rows[i].usage - db.rows[i].pending
  {
    AllRowsFit(db, matched, estimate);
    FallbackFits(db, matched, estimate, d);
    FigureOfRow(db, matched, d.remaining);
  }

  /**
    The figure of a denial: what some matched budget has left, and, if none is overdrawn, no
    more than the limiter has.
   */
  lemma DenyInColumns(db: Db, matched: seq<Id>, estimate: real, limiter: Id, remaining: real)
    requires Keyed(db.rows) && Distinct(matched) && forall i :: i in matched ==> i in db.rows
    ensures Decided(MatchedRows(db, matched), estimate, Deny(limiter, remaining)) ==>
              && limiter in matched && IsFigureOf(db, matched, remaining)
              && (NoneOverdrawn(db, matched) ==>
                    remaining <= db.rows[limiter].config.amount - db.rows[limiter].usage - db.rows[limiter].pending)
  {
    var bs := MatchedRows(db, matched);
    if Decided(bs, estimate, Deny(limiter, remaining)) {
      var k: nat :| k < |bs| && DeniedAt(bs, estimate, k, limiter, remaining);
      DeniedFigure(db, matched, k);
    }
  }

  /** Some matched budget has exactly this much left. */
  ghost predicate IsFigureOf(db: Db, matched: seq<Id>, figure: real)
    requires forall j :: j in matched ==> j in db.rows
  {
    exists i :: i in matched && figure == db.rows[i].config.amount - db.rows[i].usage - db.rows[i].pending
  }

  ghost predicate NoneOverdrawn(db: Db, matched: seq<Id>)
    requires forall j :: j in matched ==> j in db.rows
  {
    forall i :: i in matched ==> 0.0 <= db.rows[i].config.amount - db.rows[i].usage - db.rows[i].pending
  }

  lemma DeniedFigure(db: Db, matched: seq<Id>, k: nat)
    requires Keyed(db.rows) && Distinct(matched) && forall i :: i in matched ==> i in db.rows
    requires k < |MatchedRows(db, matched)|
    ensures var bs := MatchedRows(db, matched);
            var figure := Reported(Remainings(if bs[k].config.isolated then bs[..k + 1] else bs));
            && bs[k].id in matched && db.rows[bs[k].id] == bs[k] && IsFigureOf(db, matched, figure)
            && (NoneOverdrawn(db, matched) ==> figure <= bs[k].Remaining())
  {
    var bs := MatchedRows(db, matched);
    var b := VisitedFigure(bs, k);
    RowInTable(db, matched, b);
    RowInTable(db, matched, bs[k]);
    AllRowsFit(db, matched, 0.0);
    assert b.Remaining() == db.rows[b.id].config.amount - db.rows[b.id].usage - db.rows[b.id].pending;
  }

  lemma RowInTable(db: Db, matched: seq<Id>, b: Budget)
    requires Keyed(db.rows) && Distinct(matched) && (forall i :: i in matched ==> i in db.rows)
    requires b in MatchedRows(db, matched)
    ensures b.id in matched && db.rows[b.id] == b
  {
    MatchedFacts(db, matched);
    InIds(MatchedRows(db, matched), b.id);
  }

  lemma VisitedFigure(bs: seq<Budget>, k: nat) returns (b: Budget)
    requires k < |bs|
    ensures var figure := Reported(Remainings(if bs[k].config.isolated then bs[..k + 1] else bs));
            && b in bs && figure == b.Remaining()
            && ((forall c :: c in bs ==> c.Remaining() >= 0.0) ==> figure <= bs[k].Remaining())
  {
    var visited := if bs[k].config.isolated then bs[..k + 1] else bs;
    b := FigureOfSome(visited);
    assert bs[k] in visited && forall c :: c in visited ==> c in bs;
  }

  lemma AllRowsFit(db: Db, matched: seq<Id>, estimate: real)
    requires Keyed(db.rows) && Distinct(matched) && forall i :: i in matched ==> i in db.rows
    ensures (forall b :: b in MatchedRows(db, matched) ==> b.Remaining() >= estimate) <==>
              forall i :: i in matched ==> db.rows[i].config.amount - db.rows[i].usage - db.rows[i].pending >= estimate
  {
    MatchedFacts(db, matched);
    forall i | i in matched
      ensures db.rows[i] in MatchedRows(db, matched)
    {
      MatchedRow(db, matched, i);
    }
    forall b | b in MatchedRows(db, matched)
      ensures b.id in matched && db.rows[b.id] == b
    {
      InIds(MatchedRows(db, matched), b.id);
    }
  }

  lemma FallbackFits(db: Db, matched: seq<Id>, estimate: real, d: Decision)
    requires Keyed(db.rows) && Distinct(matched) && forall i :: i in matched ==> i in db.rows
    requires d.Allow? && Decided(MatchedRows(db, matched), estimate, d)
    ensures d.fallback.None? <==> forall b :: b in MatchedRows(db, matched) ==> b.Remaining() >= estimate
    ensures d.fallback.Some? ==>
              && d.fallback.value in matched
              && var p := db.rows[d.fallback.value];
                 && p.config.amount - p.usage - p.pending >= estimate
                 && exists i :: i in matched && HighestShort(db, matched, i, estimate) &&
                      db.rows[i].config.parent == d.fallback
  {
    var bs := MatchedRows(db, matched);
    MatchedFacts(db, matched);
    if d.fallback.Some? {
      var k: nat :| k < |bs| && FellBackAt(bs, estimate, k, d.fallback);
      assert bs[k] in bs && Ids(bs)[k] in matched;
      RowPasses(db, matched, bs[k].id, estimate);
      NoneShortAbove(db, matched, estimate, k, d.fallback);
      assert HighestShort(db, matched, bs[k].id, estimate);
    }
  }

  lemma NoneShortAbove(db: Db, matched: seq<Id>, estimate: real, k: nat, fallback: Option<Id>)
    requires Keyed(db.rows) && Distinct(matched) && forall i :: i in matched ==> i in db.rows
    requires k < |MatchedRows(db, matched)| && FellBackAt(MatchedRows(db, matched), estimate, k, fallback)
    ensures forall j :: j in matched && Rank(MatchedRows(db, matched)[k].entity) < Rank(db.rows[j].entity) ==>
              db.rows[j].config.amount - db.rows[j].usage - db.rows[j].pending >= estimate
  {
    forall j | j in matched && Rank(MatchedRows(db, matched)[k].entity) < Rank(db.rows[j].entity)
      ensures db.rows[j].Remaining() >= estimate
    {
      HigherIsLater(db, matched, k, j);
    }
  }

  lemma HigherIsLater(db: Db, matched: seq<Id>, k: nat, j: Id)
    requires Keyed(db.rows) && Distinct(matched) && forall i :: i in matched ==> i in db.rows
    requires k < |MatchedRows(db, matched)| && j in matched
    requires Rank(MatchedRows(db, matched)[k].entity) < Rank(db.rows[j].entity)
    ensures exists m :: k < m < |MatchedRows(db, matched)| && MatchedRows(db, matched)[m] == db.rows[j]
  {
    var bs := MatchedRows(db, matched);
    MatchedRow(db, matched, j);
    var m: nat :| m < |bs| && bs[m] == db.rows[j];
    if m < k {
      SortedLevels(RowsOf(db.rows, matched), m, k);
    }
  }

  lemma FigureOfRow(db: Db, matched: seq<Id>, figure: real)
    requires Keyed(db.rows) && Distinct(matched) && matched != [] && forall i :: i in matched ==> i in db.rows
    requires figure == Reported(Remainings(MatchedRows(db, matched)))
    ensures exists i :: i in matched && figure == db.rows[i].config.amount - db.rows[i].usage - db.rows[i].pending
    ensures (forall i :: i in matched ==> 0.0 <= db.rows[i].config.amount - db.rows[i].usage - db.rows[i].pending) ==>
              forall i :: i in matched ==> figure <= db.rows[i].config.amount - db.rows[i].usage - db.rows[i].pending
  {
    var bs := MatchedRows(db, matched);
    MatchedFacts(db, matched);
    var b := FigureOfSome(bs);
    InIds(bs, b.id);
    AllRowsFit(db, matched, 0.0);
    AllRowsFit(db, matched, figure);
  }

  lemma FigureOfSome(bs: seq<Budget>) returns (b: Budget)
    requires bs != []
    ensures b in bs && Reported(Remainings(bs)) == b.Remaining()
    ensures (forall c :: c in bs ==> c.Remaining() >= 0.0) ==>
              forall c :: c in bs ==> c.Remaining() >= Reported(Remainings(bs))
  {
    var rs := Remainings(bs);
    ReportedFigure(rs);
    var k :| 0 <= k < |rs| && rs[k] == Reported(rs);
    b := bs[k];
    assert forall j :: 0 <= j < |bs| ==> bs[j] in bs;
  }

  // ----- Reservation -------------------------------------------------------

  /** A reservation puts one hold and the estimate on every matched budget and nothing on others. */
  lemma ReservedInColumns(db: Db, matched: seq<Id>, estimate: real, r: RequestId, expires: nat)
    requires Valid(db) && Legal(db, DoReserve(matched, estimate, r, expires))
    requires Reserves(db, MatchedRows(db, matched), estimate, r)
    ensures var after := Reserve(db, MatchedRows(db, matched), estimate, r, expires);
            && (forall h :: h in after.holds <==>
                  h in db.holds ||
                  (h.budget in matched && h.request == r && h.estimate == estimate && h.expires == expires))
            && after.rows.Keys == db.rows.Keys
            && forall i :: i in db.rows ==>
                 after.rows[i] ==
                   if i in matched then db.rows[i].(pending := db.rows[i].pending + estimate) else db.rows[i]
  {
    var bs := MatchedRows(db, matched);
    MatchedFacts(db, matched);
    NewHoldsAre(bs, r, estimate, expires);
  }

  lemma NewHoldsAre(bs: seq<Budget>, r: RequestId, estimate: real, expires: nat)
    ensures forall h :: h in NewHolds(bs, r, estimate, expires) <==>
              h.budget in Ids(bs) && h.request == r && h.estimate == estimate && h.expires == expires
  {
    var hs := NewHolds(bs, r, estimate, expires);
    forall h | h in hs
      ensures h.budget in Ids(bs)
    {
      var k :| 0 <= k < |hs| && hs[k] == h;
      assert Ids(bs)[k] == h.budget;
    }
    forall i | i in Ids(bs)
      ensures Hold(i, r, estimate, expires) in hs
    {
      var k :| 0 <= k < |bs| && Ids(bs)[k] == i;
      assert hs[k] == Hold(i, r, estimate, expires);
    }
  }

  // ----- Settlement --------------------------------------------------------

  /**
    A settlement writes one record, stamped now and as large as the rise of usage, for every
    budget of the chain, even when that rise is zero, and none for any other budget.
   */
  lemma SettledInColumns(db: Db, r: RequestId, cost: real, now: nat, b: Id)
    requires Valid(db) && b in db.rows && FirstHold(db.holds, r).Some? && |db.log[b]| <= 30
    ensures var after := Settle(db, r, cost, now);
            && b in after.rows && b in after.log
            && if b in Chain(db.rows, FirstHold(db.holds, r).value.budget)
               then OneRecordMore(db.log[b], after.log[b], r, after.rows[b].usage - db.rows[b].usage, now)
               else after.log[b] == db.log[b]
  {
    SettleEffect(db, r, cost, now, b);
    SettledLog(db, r, cost, now, b);
  }

  /** The second log is the first with one record at its end, and without its oldest if it was full. */
  ghost predicate OneRecordMore(log: seq<Record>, after: seq<Record>, r: RequestId, cost: real, now: nat) {
    && after != []
    && after[..|after| - 1] == (if |log| < 30 then log else log[1..])
    && after[|after| - 1].request == r && after[|after| - 1].cost == cost && after[|after| - 1].at == now
  }

  lemma SettledLog(db: Db, r: RequestId, cost: real, now: nat, b: Id)
    requires Valid(db) && b in db.rows && FirstHold(db.holds, r).Some? && |db.log[b]| <= 30
    ensures b in Settle(db, r, cost, now).log
    ensures var id := FirstHold(db.holds, r).value.budget;
            if b in Chain(db.rows, id)
            then OneRecordMore(db.log[b], Settle(db, r, cost, now).log[b], r, ChargeFor(Path(db.rows, id), cost, b),
              now)
            else Settle(db, r, cost, now).log[b] == db.log[b]
  {
    var h := FirstHold(db.holds, r).value;
    PathRows(db.rows, h.budget);
    PushedOut(db.log[b], Record(r, ChargeFor(Path(db.rows, h.budget), cost, b), now));
    LoggedAt(db.log, Path(db.rows, h.budget), r, cost, now, b);
  }

  lemma LoggedAt(log: map<Id, seq<Record>>, path: seq<Budget>, r: RequestId, cost: real, now: nat, b: Id)
    requires b in log
    ensures b in Logged(log, path, r, cost, now)
    ensures Logged(log, path, r, cost, now)[b] ==
              if b in Ids(path) then Newest(log[b] + [Record(r, ChargeFor(path, cost, b), now)]) else log[b]
  {
  }

  lemma PushedOut(records: seq<Record>, r: Record)
    requires |records| <= 30
    ensures var kept := if |records| < 30 then records else records[1..];
            var after := Newest(records + [r]);
            after == kept + [r] && after[..|after| - 1] == kept && after[|after| - 1] == r
  {
  }

  /** A version counts the charges and the resets of its budget, one by one, and nothing else. */
  lemma VersionInColumns(db: Db, e: Event, b: Id)
    requires Valid(db) && b in db.rows && 0.0 <= db.rows[b].usage
    ensures b in Step(db, e).rows
    ensures Step(db, e).rows[b].version ==
              db.rows[b].version +
              if e.DoReset? then (if b in e.which then 1 else 0)
              else if Step(db, e).rows[b].usage == db.rows[b].usage then 0 else 1
  {
    UsageStep(db, e, b);
  }

  // ----- Period ends -------------------------------------------------------

  /**
    A sweep starts a new period for exactly the budgets whose period has ended: afterwards
    none with a positive length is overdue, and the others are as they were.
   */
  lemma SweptInColumns(db: Db, now: nat, i: Id)
    requires i in db.rows
    ensures var after := Reset(db, Overdue(db.rows, now), now);
            && i in after.rows && after.rows[i].config == db.rows[i].config
            && var (row, row') := (db.rows[i], after.rows[i]);
               match row.config.periodLength
               case None => row' == row
               case Some(length) =>
                 if now < row.periodStart + length then row' == row
                 else
                   && row'.usage == 0.0 && row'.pending == 0.0 && row'.periodStart == now
                   && row'.status == row.status && row'.id == row.id
                   && (0 < length ==> now < row'.periodStart + length)
  {
  }

  /** A second sweep at the same moment changes nothing. */
  lemma SecondSweepIsNoop(db: Db, now: nat)
    requires forall i :: i in db.rows ==> db.rows[i].config.periodLength != Some(0)
    ensures var after := Reset(db, Overdue(db.rows, now), now);
            Reset(after, Overdue(after.rows, now), now) == after
  {
    var after := Reset(db, Overdue(db.rows, now), now);
    forall i | i in after.rows
      ensures i !in Overdue(after.rows, now)
    {
      SweptInColumns(db, now, i);
    }
    assert Overdue(after.rows, now) == {};
  }
}
