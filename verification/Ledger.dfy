/**
  The budget ledger as the services run it: tables updated in place by loops inside
  transactions. Each method is proved to commit exactly the step of Database.dfy.
 */
module Ledger {
  import opened Model
  import opened Hierarchy
  import opened BucketFill
  import opened Admission
  import opened Database
  import opened Interleaving
  import opened Columns

  datatype ReserveResult =
    | Unmatched
    | Admitted(fallback: Option<Id>, remaining: real)
    | Limited(limiter: Id, remaining: real)
    | Aborted  // a reservation of this request already exists on a matched budget

  /** The enabled rows whose match expression holds, in row order. */
  function Matching(enabled: seq<Id>, matches: set<Id>): (matched: seq<Id>)
    ensures forall i :: i in matched <==> i in enabled && i in matches
    ensures Distinct(enabled) ==> Distinct(matched)
  {
    if enabled == [] then []
    else
      var init, i := enabled[..|enabled| - 1], enabled[|enabled| - 1];
      assert enabled == init + [i];
      Matching(init, matches) + if i in matches then [i] else []
  }

  function ChargedRows(rows: map<Id, Budget>, path: seq<Budget>, cost: real): map<Id, Budget> {
    map i | i in rows :: ChargedRow(rows[i], path, cost)
  }

  lemma MatchingMembers(enabled: seq<Id>, matches: set<Id>)
    ensures Matching(enabled, matches) == [] <==> forall i :: i in enabled ==> i !in matches
  {
    if Matching(enabled, matches) != [] {
      assert Matching(enabled, matches)[0] in Matching(enabled, matches);
    }
  }

  /** One turn of the charging loop, seen from all rows. */
  lemma ChargeOneMore(path: seq<Budget>, cost: real, k: nat)
    requires Distinct(Ids(path)) && k < |path|
    ensures Remainder(path[..k + 1], cost) == Rest(path[k], Remainder(path[..k], cost))
    ensures forall i :: i != path[k].id ==> ChargeFor(path[..k + 1], cost, i) == ChargeFor(path[..k], cost, i)
    ensures ChargeFor(path[..k], cost, path[k].id) == 0.0
    ensures ChargeFor(path[..k + 1], cost, path[k].id) == Charge(path[k], Remainder(path[..k], cost))
    ensures Ids(path[..k + 1]) == Ids(path[..k]) + [path[k].id]
    ensures path[k].id !in Ids(path[..k])
  {
    assert path[..k + 1][..k] == path[..k];
    forall j | 0 <= j < k
      ensures path[..k][j].id != path[k].id
    {
      assert Ids(path)[j] != Ids(path)[k];
    }
    ChargeForAbsent(path[..k], cost, path[k].id);
  }

  function ChargeAt(rows: map<Id, Budget>, id: Id, c: real): map<Id, Budget>
    requires id in rows
  {
    var b := rows[id];
    rows[id := b.(usage := b.usage + c, version := if c > 0.0 then b.version + 1 else b.version)]
  }

  function RecordAt(log: map<Id, seq<Record>>, id: Id, r: Record): map<Id, seq<Record>>
    requires id in log
  {
    log[id := Newest(log[id] + [r])]
  }

  lemma ChargedRowsStep(rows: map<Id, Budget>, path: seq<Budget>, cost: real, k: nat)
    requires Keyed(rows) && Distinct(Ids(path)) && k < |path| && path[k].id in rows
    ensures ChargedRows(rows, path[..k + 1], cost) ==
              ChargeAt(ChargedRows(rows, path[..k], cost), path[k].id, Charge(path[k], Remainder(path[..k], cost)))
  {
    ChargeOneMore(path, cost, k);
  }

  lemma LoggedStep(log: map<Id, seq<Record>>, path: seq<Budget>, r: RequestId, cost: real, now: nat, k: nat)
    requires Distinct(Ids(path)) && k < |path| && path[k].id in log
    ensures Logged(log, path[..k + 1], r, cost, now) ==
              RecordAt(Logged(log, path[..k], r, cost, now), path[k].id,
                       Record(r, Charge(path[k], Remainder(path[..k], cost)), now))
  {
    ChargeOneMore(path, cost, k);
  }

  /** The reported budgets are exactly the ones charged a positive amount. */
  ghost predicate ListsCharged(charged: seq<Id>, path: seq<Budget>, cost: real) {
    forall i :: i in charged <==> ChargeFor(path, cost, i) > 0.0
  }

  lemma ListsChargedStep(charged: seq<Id>, path: seq<Budget>, cost: real, k: nat)
    requires Distinct(Ids(path)) && k < |path| && ListsCharged(charged, path[..k], cost)
    ensures Remainder(path[..k + 1], cost) == Rest(path[k], Remainder(path[..k], cost))
    ensures ListsCharged(if Charge(path[k], Remainder(path[..k], cost)) > 0.0 then charged + [path[k].id] else charged,
                         path[..k + 1], cost)
  {
    ChargeOneMore(path, cost, k);
  }

  // ----- Loops on a transaction's own copy of the tables -------------------

  /** The reservation loop of CheckAndReserveBudget. */
  method ReserveAll(rows: map<Id, Budget>, holds: seq<Hold>, bs: seq<Budget>, estimate: real, request: RequestId,
                    expires: nat)
    returns (txRows: map<Id, Budget>, txHolds: seq<Hold>, aborted: bool)
    requires Distinct(Ids(bs)) && forall b :: b in bs ==> b.id in rows
    ensures aborted <==> Clashes(holds, bs, request)
    ensures !aborted ==> txHolds == holds + NewHolds(bs, request, estimate, expires)
    ensures !aborted ==> txRows == HeldRows(rows, bs, estimate)
  {
    txRows, txHolds, aborted := rows, holds, false;
    for k := 0 to |bs|
      invariant aborted <==> Clashes(holds, bs[..k], request)
      invariant !aborted ==> txHolds == holds + NewHolds(bs[..k], request, estimate, expires)
      invariant !aborted ==> txRows == HeldRows(rows, bs[..k], estimate)
    {
      var b := bs[k];
      assert b in bs;
      assert Ids(bs[..k + 1]) == Ids(bs[..k]) + [b.id];
      assert forall j :: 0 <= j < k ==> Ids(bs)[j] != Ids(bs)[k];
      if !aborted {
        if HasHold(txHolds, request, b.id) {
          aborted := true;
        } else {
          txHolds := txHolds + [Hold(b.id, request, estimate, expires)];
          txRows := txRows[b.id := txRows[b.id].(pending := txRows[b.id].pending + estimate)];
        }
      }
    }
    assert bs[..|bs|] == bs;
  }

  /** One turn of the charging loop: charge the row, pass on the rest, write the record. */
  method ChargeOne(rows: map<Id, Budget>, log: map<Id, seq<Record>>, b: Budget, left: real, request: RequestId,
                   now: nat)
    returns (txRows: map<Id, Budget>, txLog: map<Id, seq<Record>>, charge: real, rest: real)
    requires b.id in rows && b.id in log && 0.0 <= left
    ensures charge == Charge(b, left) && rest == Rest(b, left)
    ensures txRows == ChargeAt(rows, b.id, charge)
    ensures txLog == RecordAt(log, b.id, Record(request, charge, now))
  {
    txRows, charge, rest := rows, left, left;
    if !b.config.isolated && b.config.parent.Some? {
      var room := b.config.amount - b.usage;
      if room <= 0.0 {
        charge := 0.0;
      } else if left > room {
        charge := room;
      }
    }
    var row := rows[b.id];
    if charge > 0.0 {
      txRows := txRows[b.id := row.(usage := row.usage + charge, version := row.version + 1)];
      if !b.config.isolated {
        rest := left - charge;
      }
    } else {
      assert row.(usage := row.usage + charge) == row && rows[b.id := row] == rows;
    }
    txLog := log[b.id := Newest(log[b.id] + [Record(request, charge, now)])];
  }

  /** What each budget of the path has left once it is charged. */
  function Leftovers(path: seq<Budget>, cost: real): (rs: seq<real>)
    ensures |rs| == |path|
  {
    if path == [] then []
    else
      var init, b := path[..|path| - 1], path[|path| - 1];
      Leftovers(init, cost) + [b.Remaining() - Charge(b, Remainder(init, cost))]
  }

  lemma {:induction false} LeftoverAt(path: seq<Budget>, cost: real, k: nat)
    requires Distinct(Ids(path)) && k < |path|
    ensures Leftovers(path, cost)[k] ==
              path[k].config.amount - path[k].usage - path[k].pending - ChargeFor(path, cost, path[k].id)
  {
    var n := |path| - 1;
    ChargeForAt(path, cost, k);
    if k < n {
      var init := path[..n];
      assert forall i :: 0 <= i < n ==> Ids(path)[i] == Ids(init)[i];
      LeftoverAt(init, cost, k);
      ChargeForAt(init, cost, k);
      assert init[..k] == path[..k];
    }
  }

  /** Where the charging loop stands once the budgets in `done` have had their turn. */
  ghost predicate Paid(rows: map<Id, Budget>, log: map<Id, seq<Record>>, request: RequestId, cost: real, now: nat,
                       done: seq<Budget>,
                       left: real, txRows: map<Id, Budget>, txLog: map<Id, seq<Record>>, charged: seq<Id>)
  {
    && left == Remainder(done, cost)
    && txRows == ChargedRows(rows, done, cost)
    && txLog == Logged(log, done, request, cost, now)
    && ListsCharged(charged, done, cost)
  }

  lemma PaidNext(rows: map<Id, Budget>, log: map<Id, seq<Record>>, path: seq<Budget>, request: RequestId, cost: real,
                 now: nat, k: nat,
                 left: real, txRows: map<Id, Budget>, txLog: map<Id, seq<Record>>, charged: seq<Id>)
    requires Keyed(rows) && log.Keys == rows.Keys && Distinct(Ids(path)) && 0.0 <= cost && k < |path|
               && path[k].id in rows
    requires Paid(rows, log, request, cost, now, path[..k], left, txRows, txLog, charged)
    ensures 0.0 <= left && path[k].id in txRows && path[k].id in txLog
    ensures var b, c := path[k], Charge(path[k], left);
            Paid(rows, log, request, cost, now, path[..k + 1], Rest(b, left), ChargeAt(txRows, b.id, c),
                 RecordAt(txLog, b.id, Record(request, c, now)), if c > 0.0 then charged + [b.id] else charged)
  {
    RemainderBounds(path[..k], cost);
    ChargedRowsStep(rows, path, cost, k);
    LoggedStep(log, path, request, cost, now, k);
    ListsChargedStep(charged, path, cost, k);
  }

  lemma LeftoversStep(path: seq<Budget>, cost: real, k: nat, charge: real, r: real)
    requires k < |path| && charge == Charge(path[k], Remainder(path[..k], cost))
    requires r == path[k].config.amount - path[k].usage - charge - path[k].pending
    ensures Leftovers(path[..k + 1], cost) == Leftovers(path[..k], cost) + [r]
  {
    assert path[..k + 1][..k] == path[..k];
  }

  lemma ReportedStep(rs: seq<real>, r: real)
    ensures Reported(rs + [r]) == if Reported(rs) < 0.0 || r < Reported(rs) then r else Reported(rs)
  {
    assert (rs + [r])[..|rs|] == rs;
  }

  /** The charging loop of DecrementBudgets. */
  method ChargePath(rows: map<Id, Budget>, log: map<Id, seq<Record>>, path: seq<Budget>, request: RequestId,
                    cost: real, now: nat)
    returns (txRows: map<Id, Budget>, txLog: map<Id, seq<Record>>, charged: seq<Id>, remaining: real)
    requires Keyed(rows) && log.Keys == rows.Keys && Distinct(Ids(path)) && 0.0 <= cost
    requires forall i :: 0 <= i < |path| ==> path[i].id in rows
    ensures txRows == ChargedRows(rows, path, cost)
    ensures txLog == Logged(log, path, request, cost, now)
    ensures ListsCharged(charged, path, cost)
    ensures remaining == Reported(Leftovers(path, cost))
  {
    var left := cost;
    txRows, txLog, charged, remaining := rows, log, [], -1.0;
    assert Paid(rows, log, request, cost, now, path[..0], left, txRows, txLog, charged) by {
      assert Ids(path[..0]) == [];
    }
    for k := 0 to |path|
      invariant Paid(rows, log, request, cost, now, path[..k], left, txRows, txLog, charged)
      invariant remaining == Reported(Leftovers(path[..k], cost))
    {
      var b := path[k];
      PaidNext(rows, log, path, request, cost, now, k, left, txRows, txLog, charged);
      var charge;
      txRows, txLog, charge, left := ChargeOne(txRows, txLog, b, left, request, now);
      if charge > 0.0 {
        charged := charged + [b.id];
      }
      var r := b.config.amount - b.usage - charge - b.pending;
      LeftoversStep(path, cost, k, charge, r);
      ReportedStep(Leftovers(path[..k], cost), r);
      if remaining < 0.0 || r < remaining {
        remaining := r;
      }
    }
    assert path[..|path|] == path;
  }

  /** The release loop of CleanupExpiredReservations, over the grouped totals. */
  method ReleaseAll(rows: map<Id, Budget>, totals: map<Id, real>) returns (txRows: map<Id, Budget>)
    requires totals.Keys <= rows.Keys
    ensures txRows == ReleasedRows(rows, totals)
  {
    txRows := rows;
    var todo := totals.Keys;
    while todo != {}
      invariant todo <= totals.Keys
      invariant txRows == ReleasedRows(rows, totals - todo)
      decreases todo
    {
      var b :| b in todo;
      txRows := txRows[b := txRows[b].(pending := Release(txRows[b].pending, totals[b]))];
      todo := todo - {b};
    }
    assert totals - todo == totals;
  }

  // ----- What the transactions leave behind --------------------------------

  lemma CommitIsChargeAndRelease(db: Db, s: Snapshot, cost: real, now: nat)
    requires Keyed(db.rows) && s.first.budget in db.rows
    ensures var charged := ChargedRows(db.rows, s.path, cost);
            var b := charged[s.first.budget];
            Commit(db, s, cost, now).rows == charged[b.id := b.(pending := Release(b.pending, s.first.estimate))]
    ensures Commit(db, s, cost, now).log == Logged(db.log, s.path, s.first.request, cost, now)
  {
  }

  lemma CommitIsCharge(db: Db, s: Snapshot, cost: real, now: nat)
    requires Keyed(db.rows) && s.first.budget !in db.rows
    ensures Commit(db, s, cost, now).rows == ChargedRows(db.rows, s.path, cost)
    ensures Commit(db, s, cost, now).log == Logged(db.log, s.path, s.first.request, cost, now)
  {
  }

  /** What a reservation attempt reports, given the sorted matched rows. */
  ghost predicate Reports(db: Db, bs: seq<Budget>, estimate: real, request: RequestId, r: ReserveResult) {
    match r
    case Unmatched => false
    case Admitted(fallback, remaining) =>
      Decided(bs, estimate, Allow(fallback, remaining)) && !Clashes(db.holds, bs, request)
    case Limited(limiter, remaining) => Decided(bs, estimate, Deny(limiter, remaining))
    case Aborted => Admits(bs, estimate) && Clashes(db.holds, bs, request)
  }

  class Ledger {
    var rows: map<Id, Budget>
    var holds: seq<Hold>
    var log: map<Id, seq<Record>>

    function State(): Db
      reads this
    {
      Db(rows, holds, log)
    }

    ghost predicate Valid()
      reads this
    {
      Database.Valid(State())
    }

    constructor (rows: map<Id, Budget>)
      requires Keyed(rows)
      ensures Valid()
      ensures State() == Db(rows, [], map i | i in rows :: [])
    {
      this.rows := rows;
      holds := [];
      log := map i | i in rows :: [];
    }

    /** CheckBudget: the same decision on the same rows, without a reservation. */
    method CheckBudget(enabled: seq<Id>, matches: set<Id>, estimate: real) returns (d: Option<Decision>)
      requires Valid() && Distinct(enabled) && forall i :: i in enabled <==> i in rows && Enabled(rows[i])
      ensures d.None? <==> Matching(enabled, matches) == []
      ensures d.Some? ==> Decided(MatchedRows(State(), Matching(enabled, matches)), estimate, d.value)
      ensures d.None? <==> forall i :: i in rows && rows[i].config.enabled && rows[i].status == Approved ==>
                i !in matches
      ensures d.Some? && d.value.Deny? <==>
                !(forall i :: i in enabled && i in matches ==>
                    || rows[i].config.amount - rows[i].usage - rows[i].pending >= estimate
                    || (rows[i].config.allowFallback &&
                        exists p :: p in enabled && p in matches && rows[i].config.parent == Some(p) &&
                          rows[p].config.amount - rows[p].usage - rows[p].pending >= estimate))
    {
      var matched := Matching(enabled, matches);
      MatchingMembers(enabled, matches);
      AdmittedIff(State(), matched, estimate);
      if matched == [] {
        return None;
      }
      MatchedFacts(State(), matched);
      var bs := SortByHierarchy(RowsOf(rows, matched));
      var decision := Decide(bs, estimate);
      d := Some(decision);
    }

    /** CheckAndReserveBudget. `enabled` is the answer of the row-locking query. */
    method CheckAndReserve(enabled: seq<Id>, matches: set<Id>, estimate: real, request: RequestId, now: nat, ttl: nat)
      returns (r: ReserveResult)
      requires Valid() && 0.0 <= estimate
      requires Distinct(enabled) && forall i :: i in enabled <==> i in rows && Enabled(rows[i])
      modifies this
      ensures Valid()
      ensures Legal(old(State()), DoReserve(Matching(enabled, matches), estimate, request, now + ttl))
      ensures State() == Step(old(State()), DoReserve(Matching(enabled, matches), estimate, request, now + ttl))
      ensures r.Unmatched? <==> Matching(enabled, matches) == []
      ensures !r.Unmatched? ==>
                Reports(old(State()), MatchedRows(old(State()), Matching(enabled, matches)), estimate, request, r)
      ensures !r.Admitted? ==> State() == old(State())
      ensures r.Limited? <==>
                !(forall i :: i in enabled && i in matches ==>
                    || old(rows)[i].config.amount - old(rows)[i].usage - old(rows)[i].pending >= estimate
                    || (old(rows)[i].config.allowFallback &&
                        exists p :: p in enabled && p in matches && old(rows)[i].config.parent == Some(p) &&
                          old(rows)[p].config.amount - old(rows)[p].usage - old(rows)[p].pending >= estimate))
      ensures r.Admitted? ==>
                forall h :: h in holds <==>
                  || h in old(holds)
                  || (h.budget in old(rows) && old(rows)[h.budget].config.enabled &&
                      old(rows)[h.budget].status == Approved && h.budget in matches &&
                      h.request == request && h.estimate == estimate && h.expires == now + ttl)
      ensures r.Admitted? ==>
                forall i :: i in old(rows) ==>
                  i in rows && rows[i] ==
                    if old(rows)[i].config.enabled && old(rows)[i].status == Approved && i in matches
                    then old(rows)[i].(pending := old(rows)[i].pending + estimate) else old(rows)[i]
    {
      var matched := Matching(enabled, matches);
      MatchingMembers(enabled, matches);
      AdmittedIff(State(), matched, estimate);
      if matched == [] {
        return Unmatched;
      }
      if Reserves(State(), MatchedRows(State(), matched), estimate, request) {
        ReservedInColumns(State(), matched, estimate, request, now + ttl);
      }
      r := ReserveMatched(matched, estimate, request, now + ttl);
    }

    method ReserveMatched(matched: seq<Id>, estimate: real, request: RequestId, expires: nat) returns (r: ReserveResult)
      requires Valid() && matched != [] && Legal(State(), DoReserve(matched, estimate, request, expires))
      modifies this
      ensures Valid()
      ensures State() == Reserve(old(State()), MatchedRows(old(State()), matched), estimate, request, expires)
      ensures Reports(old(State()), MatchedRows(old(State()), matched), estimate, request, r)
    {
      ghost var before := State();
      MatchedFacts(before, matched);
      ReserveKeepsValid(before, matched, estimate, request, expires);
      var bs := SortByHierarchy(RowsOf(rows, matched));
      var d := Decide(bs, estimate);
      if d.Deny? {
        return Limited(d.limiter, d.remaining);
      }
      var txRows, txHolds, aborted := ReserveAll(rows, holds, bs, estimate, request, expires);
      if aborted {
        return Aborted;
      }
      assert Reserve(before, bs, estimate, request, expires) == Db(txRows, txHolds, log);
      rows, holds := txRows, txHolds;
      r := Admitted(d.fallback, d.remaining);
    }

    /** GetReservationByRequestID, the first read of DecrementBudgets. */
    method ReadReservation(request: RequestId) returns (first: Option<Hold>)
      requires Valid()
      ensures first == FirstHold(holds, request)
      ensures first.Some? ==> forall path :: FirstRead(State(), Snapshot(first.value, path))
    {
      first := None;
      for i := 0 to |holds|
        invariant first == FirstHold(holds[..i], request)
      {
        assert holds[..i + 1][..i] == holds[..i];
        if first.None? && holds[i].request == request {
          first := Some(holds[i]);
        }
      }
      assert holds[..|holds|] == holds;
    }

    /** GetBudgetsWithParent and the sort, the second read; other transactions may commit in between. */
    method ReadPath(first: Hold) returns (path: seq<Budget>)
      requires Valid()
      ensures path == Path(rows, first.budget) && PathRead(State(), Snapshot(first, path))
      ensures Distinct(Ids(path)) && forall i :: i in Ids(path) <==> i in Chain(rows, first.budget)
    {
      path := SortByHierarchy(RowsOf(rows, Chain(rows, first.budget)));
      PathRows(rows, first.budget);
    }

    /** The transaction of DecrementBudgets: bucket fill over whatever was read. */
    method CommitSettlement(s: Snapshot, cost: real, now: nat) returns (charged: seq<Id>, remaining: real)
      requires Valid() && Legal(State(), DoCommit(s, cost, now))
      modifies this
      ensures Valid()
      ensures State() == Commit(old(State()), s, cost, now)
      ensures ListsCharged(charged, s.path, cost)
      ensures remaining == Reported(Leftovers(s.path, cost))
    {
      ghost var before := State();
      CommitKeepsValid(before, s, cost, now);
      assert forall i :: 0 <= i < |s.path| ==> Ids(s.path)[i] in Ids(s.path);
      rows, log, charged, remaining := ChargePath(rows, log, s.path, s.first.request, cost, now);
      holds := Kept(holds, OfRequest(s.first.request));
      if s.first.budget in rows {
        CommitIsChargeAndRelease(before, s, cost, now);
        var b := rows[s.first.budget];
        rows := rows[b.id := b.(pending := Release(b.pending, s.first.estimate))];
      } else {
        CommitIsCharge(before, s, cost, now);
      }
    }

    /** DecrementBudgets without interference between its reads and its transaction. */
    method DecrementBudgets(request: RequestId, cost: real, now: nat) returns (charged: seq<Id>, remaining: real)
      requires Valid() && 0.0 <= cost
      modifies this
      ensures Valid()
      ensures State() == Settle(old(State()), request, cost, now)
      ensures FirstHold(old(holds), request).None? ==> charged == [] && remaining == 0.0 && State() == old(State())
      ensures FirstHold(old(holds), request).Some? ==>
                var path := Path(old(rows), FirstHold(old(holds), request).value.budget);
                ListsCharged(charged, path, cost) && remaining == Reported(Leftovers(path, cost))
    {
      var first := ReadReservation(request);
      if first.None? {
        return [], 0.0;
      }
      var path := ReadPath(first.value);
      SnapshotFacts(State(), request);
      charged, remaining := CommitSettlement(Snapshot(first.value, path), cost, now);
    }

    /** CleanupExpiredReservations: group, delete, then release budget by budget. */
    method CleanupExpired(now: nat) returns (count: nat)
      requires Valid()
      modifies this
      ensures Valid()
      ensures State() == Cleanup(old(State()), now)
      ensures count == |Taken(old(holds), ExpiredBy(now))|
    {
      ghost var before := State();
      CleanupKeepsValid(before, now);
      FilterFacts(holds, ExpiredBy(now));
      var expired := Taken(holds, ExpiredBy(now));
      rows := ReleaseAll(rows, Totals(expired));
      holds := Kept(holds, ExpiredBy(now));
      count := |expired|;
      assert State() == Cleanup(before, now);
    }

    method ResetBudgetUsage(id: Id, now: nat) returns (found: bool)
      requires Valid()
      modifies this`rows
      ensures Valid()
      ensures found <==> id in old(rows)
      ensures State() == Reset(old(State()), {id}, now)
    {
      found := id in rows;
      if found {
        rows := rows[id := ResetRow(rows[id], now)];
      }
      assert rows == Reset(old(State()), {id}, now).rows;
    }

    method ResetExpiredBudgets(now: nat) returns (count: nat)
      requires Valid()
      modifies this`rows
      ensures Valid()
      ensures count == |Overdue(old(rows), now)|
      ensures State() == Reset(old(State()), Overdue(old(rows), now), now)
      ensures count == |set i | i in old(rows) && old(rows)[i].config.periodLength.Some? &&
                               old(rows)[i].periodStart + old(rows)[i].config.periodLength.value <= now|
      ensures forall i :: i in rows && rows[i].config.periodLength.Some? && 0 < rows[i].config.periodLength.value ==>
                now < rows[i].periodStart + rows[i].config.periodLength.value
      ensures forall i :: i in old(rows) ==>
                && i in rows
                && if old(rows)[i].config.periodLength.None? ||
                      now < old(rows)[i].periodStart + old(rows)[i].config.periodLength.value
                   then rows[i] == old(rows)[i]
                   else rows[i].usage == 0.0 && rows[i].pending == 0.0 && rows[i].periodStart == now &&
                        rows[i].config == old(rows)[i].config
    {
      var overdue := Overdue(rows, now);
      count := |overdue|;
      ghost var ended := set i | i in rows && rows[i].config.periodLength.Some? &&
                               rows[i].periodStart + rows[i].config.periodLength.value <= now;
      assert overdue == ended;
      rows := map i | i in rows :: if i in overdue then ResetRow(rows[i], now) else rows[i];
    }
  }
}
