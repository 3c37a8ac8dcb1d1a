/**
  Approval of budgets (checked in the handlers) and of rate-limit allocations
  (guarded in SQL).
 */
module Approvals {
  import opened Model

  const MAX_REJECTIONS := 3

  datatype Step = Submitted | Approve | Reject | Resubmit

  datatype Entry = Entry(attempt: nat, step: Step)

  /** Approval columns of a budget with its append-only history. */
  datatype Case = Case(status: ApprovalStatus, rejections: nat, history: seq<Entry>)

  /** A budget created by a team user under a parent. */
  const NEW_CASE := Case(Pending, 0, [Entry(1, Submitted)])

  predicate Accepts(c: Case, s: Step) {
    match s
    case Submitted => false
    case Approve => c.status == Pending
    case Reject => c.status == Pending
    case Resubmit => c.status == Rejected && c.rejections < MAX_REJECTIONS
  }

  function StatusAfterReject(rejections: nat): ApprovalStatus {
    if rejections >= MAX_REJECTIONS then Closed else Rejected
  }

  /** One handler call; a refused call changes nothing. */
  function Handle(c: Case, s: Step): Case {
    if !Accepts(c, s) then c
    else
      var entry := Entry(c.rejections + 1, s);
      match s
      case Submitted => c
      case Approve => Case(Approved, c.rejections, c.history + [entry])
      case Reject => Case(StatusAfterReject(c.rejections + 1), c.rejections + 1, c.history + [entry])
      case Resubmit => Case(Pending, c.rejections, c.history + [entry])
  }

  class ApprovalRow {
    var status: ApprovalStatus
    var rejections: nat
    var history: seq<Entry>

    function State(): Case
      reads this
    {
      Case(status, rejections, history)
    }

    constructor ()
      ensures State() == NEW_CASE
    {
      status, rejections, history := Pending, 0, [Entry(1, Submitted)];
    }

    /** UpdateBudgetApprovalStatus. */
    method SetStatus(status': ApprovalStatus, rejected: bool)
      modifies this`status, this`rejections
      ensures status == status' && rejections == old(rejections) + if rejected then 1 else 0
    {
      status := status';
      if rejected {
        rejections := rejections + 1;
      }
    }

    method ApproveBudget() returns (ok: bool)
      modifies this
      ensures ok == Accepts(old(State()), Approve) && State() == Handle(old(State()), Approve)
      ensures ok <==> old(status) == Pending
      ensures ok ==> status == Approved && rejections == old(rejections)
    {
      if status != Pending {
        return false;
      }
      var attempt := rejections + 1;
      SetStatus(Approved, false);
      history := history + [Entry(attempt, Approve)];
      return true;
    }

    method RejectBudget() returns (ok: bool)
      modifies this
      ensures ok == Accepts(old(State()), Reject) && State() == Handle(old(State()), Reject)
      ensures ok <==> old(status) == Pending
      ensures ok ==> rejections == old(rejections) + 1 && status == if rejections >= 3 then Closed else Rejected
    {
      if status != Pending {
        return false;
      }
      var count := rejections + 1;
      var next := Rejected;
      if count >= MAX_REJECTIONS {
        next := Closed;
      }
      SetStatus(next, true);
      history := history + [Entry(count, Reject)];
      return true;
    }

    method ResubmitBudget() returns (ok: bool)
      modifies this
      ensures ok == Accepts(old(State()), Resubmit) && State() == Handle(old(State()), Resubmit)
      ensures ok <==> old(status) == Rejected && old(rejections) < 3
      ensures ok ==> status == Pending && rejections == old(rejections)
    {
      if status != Rejected {
        return false;
      }
      if rejections >= MAX_REJECTIONS {
        return false;
      }
      var attempt := rejections + 1;
      SetStatus(Pending, false);
      history := history + [Entry(attempt, Resubmit)];
      return true;
    }
  }

  function HandleAll(c: Case, steps: seq<Step>): Case {
    if steps == [] then c else Handle(HandleAll(c, steps[..|steps| - 1]), steps[|steps| - 1])
  }

  // ----- Runs of a pending budget ------------------------------------------

  /** Steps that can still take effect. */
  function StepsLeft(c: Case): int {
    match c.status
    case Pending => 5 - 2 * c.rejections
    case Rejected => 6 - 2 * c.rejections
    case Approved => 0
    case Closed => 0
  }

  ghost predicate AttemptsAscend(history: seq<Entry>) {
    forall i, j :: 0 <= i < j < |history| ==> history[i].attempt <= history[j].attempt
  }

  /** Status and rejection count as the history alone tells them. */
  function ReplayHistory(history: seq<Entry>): (ApprovalStatus, nat) {
    if history == [] then (Pending, 0)
    else
      var (status, rejections) := ReplayHistory(history[..|history| - 1]);
      match history[|history| - 1].step
      case Submitted => (Pending, rejections)
      case Approve => (Approved, rejections)
      case Reject => (StatusAfterReject(rejections + 1), rejections + 1)
      case Resubmit => (Pending, rejections)
  }

  ghost predicate Sound(c: Case) {
    && c.rejections <= MAX_REJECTIONS
    && (c.status == Closed <==> c.rejections == MAX_REJECTIONS)
    && (c.status == Rejected ==> 1 <= c.rejections)
    && c.history != []
    && AttemptsAscend(c.history)
    && c.history[|c.history| - 1].attempt <= c.rejections + 1
    && ReplayHistory(c.history) == (c.status, c.rejections)
  }

  lemma ReplayAppend(history: seq<Entry>, e: Entry)
    requires history != [] && AttemptsAscend(history) && history[|history| - 1].attempt <= e.attempt
    ensures (history + [e])[..|history|] == history
    ensures AttemptsAscend(history + [e])
  {
    forall i | 0 <= i < |history|
      ensures history[i].attempt <= e.attempt
    {
    }
  }

  lemma HandleStaysSound(c: Case, s: Step)
    requires Sound(c)
    ensures Sound(Handle(c, s))
    ensures 0 <= StepsLeft(Handle(c, s)) <= StepsLeft(c)
    ensures Accepts(c, s) ==> StepsLeft(Handle(c, s)) < StepsLeft(c) && |Handle(c, s).history| == |c.history| + 1
    ensures c.status == Approved || c.status == Closed ==> Handle(c, s) == c
  {
    if Accepts(c, s) {
      ReplayAppend(c.history, Entry(c.rejections + 1, s));
    }
  }

  /**
    Every run of a budget created pending: at most three rejections, closed exactly at
    three, at most five effective steps, attempt numbers that never go down, and a
    history that reproduces status and count.
   */
  lemma {:induction false} ApprovalRun(steps: seq<Step>)
    ensures var c := HandleAll(NEW_CASE, steps);
            Sound(c) && 0 <= StepsLeft(c) && |c.history| - 1 <= 5 - StepsLeft(c)
    ensures var c := HandleAll(NEW_CASE, steps);
            c.rejections <= 3 && (c.status == Closed <==> c.rejections == 3) && |c.history| <= 6
  {
    if steps == [] {
      assert NEW_CASE.history[..0] == [];
    } else {
      ApprovalRun(steps[..|steps| - 1]);
      HandleStaysSound(HandleAll(NEW_CASE, steps[..|steps| - 1]), steps[|steps| - 1]);
    }
  }

  /** A rejected budget may be resubmitted until its third rejection, which closes it. */
  lemma RejectedMayResubmit(steps: seq<Step>)
    ensures var c := HandleAll(NEW_CASE, steps);
            && (c.status == Rejected ==> c.rejections < 3 && HandleAll(NEW_CASE, steps + [Resubmit]).status == Pending)
            && (c.status == Pending ==>
                  && HandleAll(NEW_CASE, steps + [Approve]).status == Approved
                  && HandleAll(NEW_CASE, steps + [Reject]).rejections == c.rejections + 1
                  && HandleAll(NEW_CASE, steps + [Reject]).status == if c.rejections < 2 then Rejected else Closed)
  {
    ApprovalRun(steps);
    HandleLast(steps, Resubmit);
    HandleLast(steps, Approve);
    HandleLast(steps, Reject);
  }

  lemma HandleLast(steps: seq<Step>, s: Step)
    ensures HandleAll(NEW_CASE, steps + [s]) == Handle(HandleAll(NEW_CASE, steps), s)
  {
    assert (steps + [s])[..|steps|] == steps;
  }

  /** The bound of five effective steps is reached. */
  lemma FiveStepsAreReached()
    ensures var c := HandleAll(NEW_CASE, [Reject, Resubmit, Reject, Resubmit, Reject]);
            c.status == Closed && c.rejections == 3 && |c.history| == 6
  {
    var two, four := [Reject] + [Resubmit], [Reject] + [Resubmit] + [Reject] + [Resubmit];
    assert four + [Reject] == [Reject, Resubmit, Reject, Resubmit, Reject];
    assert [] + [Reject] == [Reject];
    HandleLast([], Reject);
    HandleLast([Reject], Resubmit);
    HandleLast(two, Reject);
    HandleLast(two + [Reject], Resubmit);
    HandleLast(four, Reject);
    FiveStepsFrom(NEW_CASE);
  }

  lemma FiveStepsFrom(c: Case)
    requires c.status == Pending && c.rejections == 0
    ensures var c' := Handle(Handle(Handle(Handle(Handle(c, Reject), Resubmit), Reject), Resubmit), Reject);
            c'.status == Closed && c'.rejections == 3 && |c'.history| == |c.history| + 5
  {
    var c1 := Handle(c, Reject);
    var c2 := Handle(c1, Resubmit);
    assert c2.status == Pending && c2.rejections == 1 && |c2.history| == |c.history| + 2;
    var c3 := Handle(c2, Reject);
    var c4 := Handle(c3, Resubmit);
    assert c4.status == Pending && c4.rejections == 2 && |c4.history| == |c.history| + 4;
  }

  function RejectionsIn(history: seq<Entry>): nat {
    if history == [] then 0
    else RejectionsIn(history[..|history| - 1]) + if history[|history| - 1].step == Reject then 1 else 0
  }

  predicate IsNumbered(h: seq<Entry>, i: nat)
    requires i < |h|
  {
    h[i].attempt == 1 + RejectionsIn(h[..i])
  }

  ghost predicate Numbered(h: seq<Entry>) {
    forall i: nat {:trigger IsNumbered(h, i)} :: i < |h| ==> IsNumbered(h, i)
  }

  /** Every entry's attempt number is one more than the rejections recorded before it. */
  lemma {:induction false} AttemptsCountRejections(steps: seq<Step>)
    ensures var h := HandleAll(NEW_CASE, steps).history;
            && RejectionsIn(h) == HandleAll(NEW_CASE, steps).rejections
            && Numbered(h)
  {
    if steps == [] {
      assert NEW_CASE.history[..0] == [];
    } else {
      AttemptsCountRejections(steps[..|steps| - 1]);
      HandleCounts(HandleAll(NEW_CASE, steps[..|steps| - 1]), steps[|steps| - 1]);
    }
  }

  lemma HandleAppends(c: Case, s: Step)
    requires Accepts(c, s)
    ensures Handle(c, s).history == c.history + [Entry(c.rejections + 1, s)]
    ensures Handle(c, s).rejections == c.rejections + if s == Reject then 1 else 0
  {
  }

  lemma HandleCounts(c: Case, s: Step)
    requires RejectionsIn(c.history) == c.rejections && Numbered(c.history)
    ensures RejectionsIn(Handle(c, s).history) == Handle(c, s).rejections && Numbered(Handle(c, s).history)
  {
    if Accepts(c, s) {
      HandleAppends(c, s);
      EntryAppended(c.history, Entry(c.rejections + 1, s));
    }
  }

  lemma EntryAppended(h: seq<Entry>, e: Entry)
    requires e.attempt == 1 + RejectionsIn(h) && Numbered(h)
    ensures RejectionsIn(h + [e]) == RejectionsIn(h) + if e.step == Reject then 1 else 0
    ensures Numbered(h + [e])
  {
    assert (h + [e])[..|h|] == h;
    forall i: nat | i < |h|
      ensures IsNumbered(h + [e], i)
    {
      assert IsNumbered(h, i);
      assert (h + [e])[..i] == h[..i];
    }
  }

  /** Approved and closed are terminal. */
  lemma {:induction false} DecisionIsFinal(c: Case, steps: seq<Step>)
    requires c.status == Approved || c.status == Closed
    ensures HandleAll(c, steps) == c
  {
    if steps != [] {
      DecisionIsFinal(c, steps[..|steps| - 1]);
    }
  }

  /** The columns a handler writes once its check on an earlier read has passed. */
  function WriteUnchecked(c: Case, s: Step, read: Case): Case {
    match s
    case Submitted => c
    case Approve => c.(status := Approved)
    case Reject => c.(status := StatusAfterReject(read.rejections + 1), rejections := c.rejections + 1)
    case Resubmit => c.(status := Pending)
  }

  /**
    Run one at a time, that write is the handler; interleaved, the update has no guard,
    so a rejection checked before an approval undoes it.
   */
  lemma UnguardedRejectUndoesApproval(c: Case)
    requires c.status == Pending
    ensures WriteUnchecked(c, Reject, c) == Handle(c, Reject).(history := c.history)
    ensures Handle(Handle(c, Approve), Reject).status == Approved
    ensures WriteUnchecked(Handle(c, Approve), Reject, c).status == StatusAfterReject(c.rejections + 1)
  {
  }

  /** n reviewers who all read the same pending budget each add a rejection. */
  ghost function RacingRejects(c: Case, n: nat, read: Case): Case {
    if n == 0 then c else WriteUnchecked(RacingRejects(c, n - 1, read), Reject, read)
  }

  lemma {:induction false} RacingRejectsAllCount(c: Case, n: nat)
    requires c.status == Pending && 0 < n
    ensures RacingRejects(c, n, c).rejections == c.rejections + n
    ensures RacingRejects(c, n, c).status == StatusAfterReject(c.rejections + 1)
  {
    if n > 1 {
      RacingRejectsAllCount(c, n - 1);
    }
  }

  // ----- Exactly when a check on an earlier read is as good as a guard ------

  ghost predicate SameColumns(c: Case, d: Case) {
    c.status == d.status && c.rejections == d.rejections
  }

  /** The row as it stands when the write arrives still suits it. */
  predicate Timely(c: Case, s: Step, read: Case) {
    match s
    case Submitted => true
    case Approve => c.status == Pending || c.status == Approved
    case Reject => c.status == Pending && StatusAfterReject(c.rejections + 1) == StatusAfterReject(read.rejections + 1)
    case Resubmit => c.status == Pending || Accepts(c, Resubmit)
  }

  lemma WriteActsGuardedIff(c: Case, s: Step, read: Case)
    requires Accepts(read, s)
    ensures SameColumns(WriteUnchecked(c, s, read), Handle(c, s)) <==> Timely(c, s, read)
  {
  }

  ghost predicate ColumnsSound(c: Case) {
    && c.rejections <= MAX_REJECTIONS
    && (c.status == Closed <==> c.rejections == MAX_REJECTIONS)
    && (c.status == Rejected ==> 1 <= c.rejections)
  }

  /** The row is not closed, and a rejection leads where its reader expected. */
  predicate InBounds(c: Case, s: Step, read: Case) {
    && c.rejections < MAX_REJECTIONS
    && (s == Reject ==> StatusAfterReject(c.rejections + 1) == StatusAfterReject(read.rejections + 1))
  }

  lemma WriteStaysSoundIff(c: Case, s: Step, read: Case)
    requires ColumnsSound(c) && Accepts(read, s)
    ensures ColumnsSound(WriteUnchecked(c, s, read)) <==> InBounds(c, s, read)
  {
  }

  // Runs in which every handler reads first and writes later, in any interleaving.

  type Client = nat

  datatype Access = Look(client: Client) | Write(client: Client, step: Step)

  datatype Race = Race(row: Case, seen: map<Client, Case>)

  /** The check of the handler passes on what it read. */
  predicate Passes(r: Race, a: Access) {
    a.Write? && a.client in r.seen && Accepts(r.seen[a.client], a.step)
  }

  function Proceed(r: Race, a: Access): Race {
    match a
    case Look(client) => r.(seen := r.seen[client := r.row])
    case Write(client, s) => if Passes(r, a) then r.(row := WriteUnchecked(r.row, s, r.seen[client])) else r
  }

  function RunRace(r: Race, run: seq<Access>): Race {
    if run == [] then r else Proceed(RunRace(r, run[..|run| - 1]), run[|run| - 1])
  }

  /** The row if each of those writes were a guarded handler call instead. */
  function Guarded(r: Race, run: seq<Access>): Case {
    if run == [] then r.row
    else
      var init, a := run[..|run| - 1], run[|run| - 1];
      if Passes(RunRace(r, init), a) then Handle(Guarded(r, init), a.step) else Guarded(r, init)
  }

  ghost predicate ActsGuarded(r: Race, run: seq<Access>) {
    run != [] ==> ActsGuarded(r, run[..|run| - 1]) && SameColumns(RunRace(r, run).row, Guarded(r, run))
  }

  ghost predicate TimelyRun(r: Race, run: seq<Access>) {
    run != [] ==>
      var init, a := run[..|run| - 1], run[|run| - 1];
      var at := RunRace(r, init);
      TimelyRun(r, init) && (Passes(at, a) ==> Timely(at.row, a.step, at.seen[a.client]))
  }

  /** Throughout a run the columns are those of guarded handlers iff every write is timely. */
  lemma {:induction false} RaceActsGuardedIff(r: Race, run: seq<Access>)
    ensures ActsGuarded(r, run) <==> TimelyRun(r, run)
    ensures ActsGuarded(r, run) ==> SameColumns(RunRace(r, run).row, Guarded(r, run))
  {
    if run != [] {
      var init, a := run[..|run| - 1], run[|run| - 1];
      RaceActsGuardedIff(r, init);
      var at := RunRace(r, init);
      if Passes(at, a) {
        WriteActsGuardedIff(at.row, a.step, at.seen[a.client]);
      }
    }
  }

  ghost predicate StaysSound(r: Race, run: seq<Access>) {
    ColumnsSound(RunRace(r, run).row) && (run != [] ==> StaysSound(r, run[..|run| - 1]))
  }

  ghost predicate InBoundsRun(r: Race, run: seq<Access>) {
    run != [] ==>
      var init, a := run[..|run| - 1], run[|run| - 1];
      var at := RunRace(r, init);
      InBoundsRun(r, init) && (Passes(at, a) ==> InBounds(at.row, a.step, at.seen[a.client]))
  }

  /**
    Throughout a run at most three rejections are counted, with closed exactly at three, iff
    every write meets a row that is not closed and, if it rejects, counts where it expected.
   */
  lemma {:induction false} RaceStaysSoundIff(r: Race, run: seq<Access>)
    requires ColumnsSound(r.row)
    ensures StaysSound(r, run) <==> InBoundsRun(r, run)
  {
    if run != [] {
      var init, a := run[..|run| - 1], run[|run| - 1];
      RaceStaysSoundIff(r, init);
      var at := RunRace(r, init);
      if Passes(at, a) && ColumnsSound(at.row) {
        WriteStaysSoundIff(at.row, a.step, at.seen[a.client]);
      }
    }
  }

  // ----- Rate-limit allocations --------------------------------------------

  datatype Allocation = Allocation(status: ApprovalStatus, rejections: nat, done: seq<Step>)

  /** ApproveAllocation, RejectAllocation, ResetAllocationForResubmit: one guarded UPDATE each. */
  function Update(a: Allocation, s: Step): Allocation {
    match s
    case Submitted => a
    case Approve => if a.status == Pending then Allocation(Approved, a.rejections, a.done + [s]) else a
    case Reject => if a.status == Pending then Allocation(Rejected, a.rejections + 1, a.done + [s]) else a
    case Resubmit => if a.status == Rejected then Allocation(Pending, a.rejections, a.done + [s]) else a
  }

  function UpdateAll(a: Allocation, steps: seq<Step>): Allocation {
    if steps == [] then a else Update(UpdateAll(a, steps[..|steps| - 1]), steps[|steps| - 1])
  }

  function Rejects(steps: seq<Step>): nat {
    if steps == [] then 0
    else Rejects(steps[..|steps| - 1]) + if steps[|steps| - 1] == Reject then 1 else 0
  }

  /** A resubmission follows a rejection, a decision opens the run or follows a resubmission. */
  predicate InTurn(done: seq<Step>, i: nat)
    requires i < |done|
  {
    if 0 < i && done[i - 1] == Reject then done[i] == Resubmit
    else (i == 0 || done[i - 1] == Resubmit) && (done[i] == Approve || done[i] == Reject)
  }

  /** Decisions and resubmissions strictly alternate, and nothing follows an approval. */
  ghost predicate Alternates(done: seq<Step>) {
    forall i :: 0 <= i < |done| ==> InTurn(done, i)
  }

  function StatusAfter(done: seq<Step>): ApprovalStatus {
    if done == [] || done[|done| - 1] == Resubmit then Pending
    else if done[|done| - 1] == Approve then Approved
    else Rejected
  }

  ghost predicate AllocationSound(a: Allocation) {
    Alternates(a.done) && a.rejections == Rejects(a.done) && a.status == StatusAfter(a.done)
  }

  lemma UpdateStaysSound(a: Allocation, s: Step)
    requires AllocationSound(a)
    ensures AllocationSound(Update(a, s))
  {
    if Update(a, s) != a {
      TurnAppend(a.done, s);
    }
  }

  lemma TurnAppend(done: seq<Step>, s: Step)
    requires Alternates(done) && s != Submitted
    requires StatusAfter(done) == if s == Resubmit then Rejected else Pending
    ensures Alternates(done + [s]) && StatusAfter(done + [s]) == StatusAfter([s])
    ensures Rejects(done + [s]) == Rejects(done) + if s == Reject then 1 else 0
  {
    var more := done + [s];
    assert more[..|done|] == done;
    forall i | 0 <= i < |done|
      ensures InTurn(more, i)
    {
      assert InTurn(done, i);
    }
    if done != [] {
      assert InTurn(done, |done| - 1);
    }
    assert InTurn(more, |done|);
  }

  /** Whatever the order in which requests reach the database. */
  lemma {:induction false} AllocationsAlternate(steps: seq<Step>)
    ensures var a := UpdateAll(Allocation(Pending, 0, []), steps);
            && Alternates(a.done)
            && a.rejections == Rejects(a.done)
            && a.status == StatusAfter(a.done)
  {
    if steps != [] {
      AllocationsAlternate(steps[..|steps| - 1]);
      UpdateStaysSound(UpdateAll(Allocation(Pending, 0, []), steps[..|steps| - 1]), steps[|steps| - 1]);
    }
  }

  class AllocationRow {
    var status: ApprovalStatus
    var rejections: nat
    ghost var done: seq<Step>

    ghost function State(): Allocation
      reads this
    {
      Allocation(status, rejections, done)
    }

    constructor ()
      ensures State() == Allocation(Pending, 0, [])
    {
      status, rejections, done := Pending, 0, [];
    }

    method ApproveAllocation() returns (ok: bool)
      modifies this
      ensures ok == (old(status) == Pending) && State() == Update(old(State()), Approve)
      ensures if ok then status == Approved && rejections == old(rejections)
              else status == old(status) && rejections == old(rejections)
    {
      ok := status == Pending;
      if ok {
        status, done := Approved, done + [Approve];
      }
    }

    method RejectAllocation() returns (ok: bool)
      modifies this
      ensures ok == (old(status) == Pending) && State() == Update(old(State()), Reject)
      ensures if ok then status == Rejected && rejections == old(rejections) + 1
              else status == old(status) && rejections == old(rejections)
    {
      ok := status == Pending;
      if ok {
        status, rejections, done := Rejected, rejections + 1, done + [Reject];
      }
    }

    method ResetAllocationForResubmit() returns (ok: bool)
      modifies this
      ensures ok == (old(status) == Rejected) && State() == Update(old(State()), Resubmit)
      ensures if ok then status == Pending && rejections == old(rejections)
              else status == old(status) && rejections == old(rejections)
    {
      ok := status == Rejected;
      if ok {
        status, done := Pending, done + [Resubmit];
      }
    }
  }
}
