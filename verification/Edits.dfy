/**
  Edits of a budget under optimistic locking: a handler reads the row, changes fields,
  and writes the whole configuration if the version still matches
  (UpdateBudget in internal/api/handlers.go and internal/db/repository.go).
 */
module Edits {
  import opened Model

  const MIN_PERIOD := 3600

  /** The request body: absent fields leave the column as it was read. */
  datatype Edit = Edit(
    amount: real,                 // only a positive amount counts
    periodLength: Option<nat>,
    parent: Option<Id>,
    isolated: Option<bool>,
    allowFallback: Option<bool>,
    enabled: Option<bool>,
    version: Option<nat>)

  datatype Caller = Caller(isOrg: bool, mayEnable: bool)

  /** Everything a handler uses besides the row: its caller and the parent amounts it sees. */
  datatype Request = Request(edit: Edit, caller: Caller, amounts: map<Id, real>)

  function MaySetFlags(entity: EntityType, caller: Caller): bool {
    entity == Org || caller.isOrg
  }

  /** The configuration an edit asks for; None when the handler refuses the request. */
  function Apply(q: Request, entity: EntityType, c: Config): Option<Config> {
    var e := q.edit;
    if e.periodLength.Some? && e.periodLength.value < MIN_PERIOD then None
    else if e.enabled == Some(true) && !c.enabled && !q.caller.mayEnable then None
    else
      var flags := MaySetFlags(entity, q.caller);
      var c' := Config(
                  if e.amount > 0.0 then e.amount else c.amount,
                  if e.periodLength.Some? then e.periodLength else c.periodLength,
                  if e.parent.Some? then e.parent else c.parent,
                  if flags && e.isolated.Some? then e.isolated.value else c.isolated,
                  if flags && e.allowFallback.Some? then e.allowFallback.value else c.allowFallback,
                  if e.enabled.Some? then e.enabled.value else c.enabled);
      if c'.parent.Some? && !c'.isolated && c'.parent.value in q.amounts && c'.amount > q.amounts[c'.parent.value]
      then None
      else Some(c')
  }

  /** Amount, period and parent, changed one after the other on the loaded row. */
  method EditBasics(e: Edit, existing: Config) returns (c: Option<Config>)
    ensures c.None? <==> e.periodLength.Some? && e.periodLength.value < MIN_PERIOD
    ensures c.Some? ==>
              c.value == existing.(
                amount := if e.amount > 0.0 then e.amount else existing.amount,
                periodLength := if e.periodLength.Some? then e.periodLength else existing.periodLength,
                parent := if e.parent.Some? then e.parent else existing.parent)
  {
    var config := existing;
    if e.amount > 0.0 {
      config := config.(amount := e.amount);
    }
    if e.periodLength.Some? {
      if e.periodLength.value < MIN_PERIOD {
        return None;
      }
      config := config.(periodLength := e.periodLength);
    }
    if e.parent.Some? {
      config := config.(parent := e.parent);
    }
    c := Some(config);
  }

  /** The two flags that only organisations, or organisation admins, may set. */
  method EditFlags(e: Edit, maySet: bool, existing: Config) returns (c: Config)
    ensures c == existing.(
                   isolated := if maySet && e.isolated.Some? then e.isolated.value else existing.isolated,
                   allowFallback :=
                     if maySet && e.allowFallback.Some? then e.allowFallback.value else existing.allowFallback)
  {
    c := existing;
    if e.isolated.Some? && maySet {
      c := c.(isolated := e.isolated.value);
    }
    if e.allowFallback.Some? && maySet {
      c := c.(allowFallback := e.allowFallback.value);
    }
  }

  /** The handler between its read and its write. */
  method EditFields(q: Request, existing: Budget) returns (c: Option<Config>)
    ensures c == Apply(q, existing.entity, existing.config)
  {
    var basics := EditBasics(q.edit, existing.config);
    if basics.None? {
      return None;
    }
    var config := EditFlags(q.edit, MaySetFlags(existing.entity, q.caller), basics.value);
    if q.edit.enabled == Some(true) && !config.enabled && !q.caller.mayEnable {
      return None;
    }
    if q.edit.enabled.Some? {
      config := config.(enabled := q.edit.enabled.value);
    }
    if config.parent.Some? && !config.isolated {
      if config.parent.value in q.amounts && config.amount > q.amounts[config.parent.value] {
        return None;
      }
    }
    c := Some(config);
  }

  // ----- What an edit can and cannot do ------------------------------------

  /** The rules every accepted edit obeys, whoever sends it and whatever it asks for. */
  lemma EditRules(q: Request, entity: EntityType, c: Config)
    requires Apply(q, entity, c).Some?
    ensures var c' := Apply(q, entity, c).value;
            && (c'.parent.Some? && !c'.isolated && c'.parent.value in q.amounts ==>
              c'.amount <= q.amounts[c'.parent.value])
            && ((c'.isolated, c'.allowFallback) != (c.isolated, c.allowFallback) ==> entity == Org || q.caller.isOrg)
            && (c'.enabled && !c.enabled ==> q.caller.mayEnable)
            && (c'.periodLength != c.periodLength ==> c'.periodLength.Some? && MIN_PERIOD <= c'.periodLength.value)
            && (c'.amount != c.amount ==> c'.amount == q.edit.amount > 0.0)
            && (c'.parent != c.parent ==> c'.parent.Some? && c'.parent == q.edit.parent)
  {
  }

  /** An edit sets every column that it asks for and may set, and leaves the others. */
  lemma EditDoesAsAsked(q: Request, entity: EntityType, c: Config)
    requires Apply(q, entity, c).Some?
    ensures var (e, c', flags) := (q.edit, Apply(q, entity, c).value, entity == Org || q.caller.isOrg);
            && c'.amount == (if e.amount > 0.0 then e.amount else c.amount)
            && c'.periodLength == (if e.periodLength.Some? then e.periodLength else c.periodLength)
            && c'.parent == (if e.parent.Some? then e.parent else c.parent)
            && c'.isolated == (if flags && e.isolated.Some? then e.isolated.value else c.isolated)
            && c'.allowFallback == (if flags && e.allowFallback.Some? then e.allowFallback.value else c.allowFallback)
            && c'.enabled == (if e.enabled.Some? then e.enabled.value else c.enabled)
  {
  }

  /** An edit is refused for a period under an hour, for enabling without permission, or for exceeding a parent. */
  lemma EditRefusedIff(q: Request, entity: EntityType, c: Config)
    ensures Apply(q, entity, c).None? <==>
              || (q.edit.periodLength.Some? && q.edit.periodLength.value < 3600)
              || (q.edit.enabled == Some(true) && !c.enabled && !q.caller.mayEnable)
              || var e := q.edit;
                 var amount := if e.amount > 0.0 then e.amount else c.amount;
                 var parent := if e.parent.Some? then e.parent else c.parent;
                 var isolated := if (entity == Org || q.caller.isOrg) && e.isolated.Some? then e.isolated.value
                                 else c.isolated;
                 parent.Some? && !isolated && parent.value in q.amounts && q.amounts[parent.value] < amount
  {
  }

  /** Sending an accepted edit again changes nothing more. */
  lemma EditTwice(q: Request, entity: EntityType, c: Config)
    requires Apply(q, entity, c).Some?
    ensures Apply(q, entity, Apply(q, entity, c).value) == Apply(q, entity, c)
  {
  }

  // ----- One row, many handlers and transactions ---------------------------

  type Client = nat

  datatype Shared = Shared(row: Budget, seen: map<Client, Budget>)

  datatype Action =
    | Read(client: Client)
    | Write(client: Client, request: Request)
    | Charge(cost: real)           // IncrementUsageInTx
    | Hold(estimate: real)         // IncrementPendingUsageInTx
    | Unhold(estimate: real)       // DecrementPendingUsageInTx and cleanup
    | StartPeriod(now: nat)        // ResetBudgetUsage, ResetExpiredBudgets
    | Decide(status: ApprovalStatus)  // UpdateBudgetApprovalStatus

  function VersionOf(q: Request, read: Budget): nat {
    if q.edit.version.Some? then q.edit.version.value else read.version
  }

  predicate Succeeds(s: Shared, a: Action) {
    && a.Write? && a.client in s.seen
    && Apply(a.request, s.seen[a.client].entity, s.seen[a.client].config).Some?
    && s.row.version == VersionOf(a.request, s.seen[a.client])
  }

  function Act(s: Shared, a: Action): Shared {
    var row := s.row;
    match a
    case Read(client) => s.(seen := s.seen[client := row])
    case Write(client, q) =>
      if Succeeds(s, a)
      then s.(row := row.(config := Apply(q, s.seen[client].entity, s.seen[client].config).value,
                          version := row.version + 1))
      else s
    case Charge(cost) => s.(row := row.(usage := row.usage + cost, version := row.version + 1))
    case Hold(e) => s.(row := row.(pending := row.pending + e))
    case Unhold(e) => s.(row := row.(pending := Max0(row.pending - e)))
    case StartPeriod(now) =>
      s.(row := row.(usage := 0.0, pending := 0.0, periodStart := now, version := row.version + 1))
    case Decide(status) => s.(row := row.(status := status))
  }

  function Play(s: Shared, actions: seq<Action>): Shared {
    if actions == [] then s else Act(Play(s, actions[..|actions| - 1]), actions[|actions| - 1])
  }

  class BudgetRow {
    var row: Budget

    constructor (row: Budget)
      ensures this.row == row
    {
      this.row := row;
    }

    /** The versioned UPDATE: false is the optimistic-lock error. */
    method UpdateBudget(config: Config, version: nat) returns (ok: bool)
      modifies this
      ensures ok <==> old(row).version == version
      ensures row == if ok then old(row).(config := config, version := old(row).version + 1) else old(row)
    {
      ok := row.version == version;
      if ok {
        row := row.(config := config, version := row.version + 1);
      }
    }

    /** The second half of the handler, on the row it read earlier. */
    method Submit(q: Request, read: Budget) returns (ok: bool)
      modifies this
      ensures ok <==> Succeeds(Shared(old(row), map[0 := read]), Write(0, q))
      ensures row == Act(Shared(old(row), map[0 := read]), Write(0, q)).row
      ensures ok <==>
                && Apply(q, read.entity, read.config).Some?
                && old(row).version == (if q.edit.version.Some? then q.edit.version.value else read.version)
      ensures row == if ok then old(row).(config := Apply(q, read.entity, read.config).value,
                version := old(row).version + 1)
                     else old(row)
    {
      var c := EditFields(q, read);
      if c.None? {
        return false;
      }
      ok := UpdateBudget(c.value, VersionOf(q, read));
    }
  }

  /** Each action in the columns: edits, charges and new periods move the version by one, the others do not. */
  lemma ActInColumns(s: Shared, a: Action)
    ensures var (row, row') := (s.row, Act(s, a).row);
            match a
            case Read(_) => row' == row
            case Write(_, _) => row' ==
              if Succeeds(s, a) then row.(config := row'.config, version := row.version + 1) else row
            case Charge(cost) => row' == row.(usage := row.usage + cost, version := row.version + 1)
            case Hold(e) => row' == row.(pending := row.pending + e)
            case Unhold(e) => row' == row.(pending := if row.pending < e then 0.0 else row.pending - e)
            case StartPeriod(now) =>
              row' == row.(usage := 0.0, pending := 0.0, periodStart := now, version := row.version + 1)
            case Decide(status) => row' == row.(status := status)
  {
  }

  // ----- No edit is lost ---------------------------------------------------

  /** A version sent by the client is not ahead of the row the handler read. */
  ghost predicate NotAhead(s: Shared, actions: seq<Action>) {
    actions != [] ==>
      var init, a := actions[..|actions| - 1], actions[|actions| - 1];
      && NotAhead(s, init)
      && (a.Write? && a.client in Play(s, init).seen ==>
            VersionOf(a.request, Play(s, init).seen[a.client]) <= Play(s, init).seen[a.client].version)
  }

  ghost predicate SnapshotsTrail(s: Shared) {
    forall c :: c in s.seen ==>
      && s.seen[c].version <= s.row.version
      && s.seen[c].entity == s.row.entity
      && (s.seen[c].version == s.row.version ==> s.seen[c].config == s.row.config)
  }

  lemma {:induction false} SnapshotsStayBehind(s: Shared, actions: seq<Action>)
    requires SnapshotsTrail(s)
    ensures SnapshotsTrail(Play(s, actions))
    ensures Play(s, actions).row.entity == s.row.entity
  {
    if actions != [] {
      SnapshotsStayBehind(s, actions[..|actions| - 1]);
      ActKeepsTrail(Play(s, actions[..|actions| - 1]), actions[|actions| - 1]);
    }
  }

  lemma ActKeepsTrail(s: Shared, a: Action)
    requires SnapshotsTrail(s)
    ensures SnapshotsTrail(Act(s, a)) && Act(s, a).row.entity == s.row.entity
  {
  }

  /** The requests of the successful writes, in commit order. */
  ghost function Accepted(s: Shared, actions: seq<Action>): seq<Request> {
    if actions == [] then []
    else
      var init, a := actions[..|actions| - 1], actions[|actions| - 1];
      Accepted(s, init) + if Succeeds(Play(s, init), a) then [a.request] else []
  }

  /** Edits applied one after the other, each to the result of the one before. */
  function Replay(entity: EntityType, c: Config, requests: seq<Request>): Option<Config> {
    if requests == [] then Some(c)
    else
      match Replay(entity, c, requests[..|requests| - 1])
      case None => None
      case Some(c') => Apply(requests[|requests| - 1], entity, c')
  }

  /**
    Every interleaving of reads, writes, charges, holds, resets and decisions leaves the
    configuration that the accepted edits give when run one at a time in commit order.
   */
  lemma {:induction false} EditsSerialize(s: Shared, actions: seq<Action>)
    requires SnapshotsTrail(s) && NotAhead(s, actions)
    ensures Replay(s.row.entity, s.row.config, Accepted(s, actions)) == Some(Play(s, actions).row.config)
  {
    if actions != [] {
      var init, a := actions[..|actions| - 1], actions[|actions| - 1];
      EditsSerialize(s, init);
      SnapshotsStayBehind(s, init);
      var done := Accepted(s, init);
      if Succeeds(Play(s, init), a) {
        assert (done + [a.request])[..|done|] == done;
      } else {
        assert done + [] == done;
      }
    }
  }

  // ----- Exactly when an edit can be lost ----------------------------------

  /**
    Actions of everybody but client 0; other clients write with the version they read, and
    all of them see these parent amounts.
   */
  ghost predicate Others(between: seq<Action>, amounts: map<Id, real>) {
    forall a :: a in between ==>
      && (a.Read? ==> a.client != 0)
      && (a.Write? ==> a.client != 0 && a.request.edit.version.None? && a.request.amounts == amounts)
  }

  /** If client 0's write succeeds after these actions, it still finds the configuration it read. */
  ghost predicate FindsWhatItRead(row: Budget, q: Request, between: seq<Action>) {
    var at := Play(Shared(row, map[0 := row]), between);
    Succeeds(at, Write(0, q)) ==> at.row.config == row.config
  }

  /** The outcome is that of the accepted edits run one at a time. */
  ghost predicate Serial(row: Budget, actions: seq<Action>) {
    var s := Shared(row, map[]);
    Replay(row.entity, row.config, Accepted(s, actions)) == Some(Play(s, actions).row.config)
  }

  function Schedule(q: Request, between: seq<Action>): seq<Action> {
    [Read(0)] + between + [Write(0, q)]
  }

  lemma {:induction false} PlayConcat(s: Shared, xs: seq<Action>, ys: seq<Action>)
    ensures Play(s, xs + ys) == Play(Play(s, xs), ys)
    ensures Accepted(s, xs + ys) == Accepted(s, xs) + Accepted(Play(s, xs), ys)
  {
    var all := xs + ys;
    if ys == [] {
      assert all == xs;
    } else {
      assert all[..|all| - 1] == xs + ys[..|ys| - 1];
      PlayConcat(s, xs, ys[..|ys| - 1]);
    }
  }

  lemma PlayOne(s: Shared, a: Action)
    ensures Play(s, [a]) == Act(s, a)
    ensures Accepted(s, [a]) == if Succeeds(s, a) then [a.request] else []
  {
    assert [a][..0] == [];
  }

  /** The schedule of a read, other actions, and a write, part by part. */
  lemma ScheduleParts(row: Budget, q: Request, between: seq<Action>)
    ensures var s, at := Shared(row, map[]), Play(Shared(row, map[0 := row]), between);
            && Play(s, Schedule(q, between)) == Act(at, Write(0, q))
            && Accepted(s, Schedule(q, between)) ==
                 Accepted(Shared(row, map[0 := row]), between) + if Succeeds(at, Write(0, q)) then [q] else []
  {
    var s := Shared(row, map[]);
    PlayOne(s, Read(0));
    PlayConcat(s, [Read(0)], between);
    PlayConcat(s, [Read(0)] + between, [Write(0, q)]);
    PlayOne(Play(Shared(row, map[0 := row]), between), Write(0, q));
    assert Accepted(s, [Read(0)] + between) == Accepted(Shared(row, map[0 := row]), between);
  }

  lemma {:induction false} OthersLeaveSeen(s: Shared, between: seq<Action>, amounts: map<Id, real>)
    requires Others(between, amounts) && 0 in s.seen
    ensures 0 in Play(s, between).seen && Play(s, between).seen[0] == s.seen[0]
  {
    if between != [] {
      assert between[|between| - 1] in between;
      OthersLeaveSeen(s, between[..|between| - 1], amounts);
    }
  }

  lemma {:induction false} OthersNotAhead(s: Shared, between: seq<Action>, amounts: map<Id, real>)
    requires Others(between, amounts)
    ensures NotAhead(s, between)
  {
    if between != [] {
      assert between[|between| - 1] in between;
      OthersNotAhead(s, between[..|between| - 1], amounts);
    }
  }

  /** A version that is not ahead protects the edit in every schedule. */
  lemma NotAheadIsSafe(row: Budget, q: Request, between: seq<Action>, amounts: map<Id, real>)
    requires Others(between, amounts) && VersionOf(q, row) <= row.version
    ensures FindsWhatItRead(row, q, between)
    ensures Serial(row, Schedule(q, between))
  {
    var s := Shared(row, map[0 := row]);
    var at := Play(s, between);
    OthersLeaveSeen(s, between, amounts);
    OthersNotAhead(s, between, amounts);
    SnapshotsStayBehind(s, between);
    EditsSerialize(s, between);
    ScheduleParts(row, q, between);
    var done := Accepted(s, between);
    if Succeeds(at, Write(0, q)) {
      assert (done + [q])[..|done|] == done;
    } else {
      assert done + [] == done;
    }
  }

  function Bumps(n: nat): (bumps: seq<Action>)
    ensures |bumps| == n && forall i :: 0 <= i < n ==> bumps[i] == Charge(1.0)
  {
    seq(n, i => Charge(1.0))
  }

  lemma {:induction false} BumpsMoveVersion(s: Shared, n: nat)
    ensures var at := Play(s, Bumps(n));
            && at.seen == s.seen && Accepted(s, Bumps(n)) == []
            && at.row.version == s.row.version + n
            && at.row.config == s.row.config && at.row.entity == s.row.entity
  {
    if n > 0 {
      assert Bumps(n)[..n - 1] == Bumps(n - 1);
      BumpsMoveVersion(s, n - 1);
    }
  }

  datatype Column = Amount | Fallback | Enabling

  predicate SameIn(c: Config, d: Config, column: Column) {
    match column
    case Amount => c.amount == d.amount
    case Fallback => c.allowFallback == d.allowFallback
    case Enabling => c.enabled == d.enabled
  }

  /** The request does not touch the column of a budget with this configuration. */
  predicate LeavesAlone(q: Request, entity: EntityType, c: Config, column: Column) {
    match column
    case Amount => q.edit.amount <= 0.0 < c.amount
    case Fallback => q.edit.allowFallback.None? || !MaySetFlags(entity, q.caller)
    case Enabling => q.edit.enabled.None?
  }

  /** The budget does not exceed its parent as these amounts have it. */
  predicate WithinCap(c: Config, amounts: map<Id, real>) {
    c.parent.Some? && !c.isolated && c.parent.value in amounts ==> c.amount <= amounts[c.parent.value]
  }

  /** An edit of one column that any cap on the current amount admits. */
  function Change(c: Config, column: Column, amounts: map<Id, real>): Request {
    var none := Edit(0.0, None, None, None, None, None, None);
    Request(match column
            case Amount => none.(amount := c.amount / 2.0)
            case Fallback => none.(allowFallback := Some(!c.allowFallback))
            case Enabling => none.(enabled := Some(!c.enabled)),
            Caller(true, true), amounts)
  }

  lemma ChangeIsAccepted(c: Config, entity: EntityType, column: Column, amounts: map<Id, real>)
    requires WithinCap(c, amounts) && (column == Amount ==> 0.0 < c.amount)
    ensures Apply(Change(c, column, amounts), entity, c).Some?
    ensures !SameIn(Apply(Change(c, column, amounts), entity, c).value, c, column)
  {
  }

  /** A request carries a column it leaves alone over from whatever it is applied to. */
  lemma LeftAlone(q: Request, entity: EntityType, c: Config, d: Config, column: Column)
    requires LeavesAlone(q, entity, c, column) && Apply(q, entity, d).Some?
    ensures SameIn(Apply(q, entity, d).value, d, column)
  {
  }

  /** Client 1 moves the version n steps; its last step is an edit of one column. */
  function Intruder(c: Config, column: Column, amounts: map<Id, real>, n: nat): seq<Action>
    requires 0 < n
  {
    Bumps(n - 1) + ([Read(1)] + [Write(1, Change(c, column, amounts))])
  }

  lemma IntruderEdits(row: Budget, column: Column, amounts: map<Id, real>, n: nat)
    requires 0 < n && WithinCap(row.config, amounts) && (column == Amount ==> 0.0 < row.config.amount)
    ensures Others(Intruder(row.config, column, amounts, n), amounts)
    ensures var s, q := Shared(row, map[0 := row]), Change(row.config, column, amounts);
            var at := Play(s, Intruder(row.config, column, amounts, n));
            && at.row.version == row.version + n && at.row.entity == row.entity
            && Some(at.row.config) == Apply(q, row.entity, row.config) && !SameIn(at.row.config, row.config, column)
            && Accepted(s, Intruder(row.config, column, amounts, n)) == [q]
  {
    var s, q := Shared(row, map[0 := row]), Change(row.config, column, amounts);
    ChangeIsAccepted(row.config, row.entity, column, amounts);
    BumpsMoveVersion(s, n - 1);
    PlayConcat(s, Bumps(n - 1), [Read(1)] + [Write(1, q)]);
    ReadThenWrite(Play(s, Bumps(n - 1)), q);
  }

  lemma ReadThenWrite(s: Shared, q: Request)
    requires q.edit.version.None? && Apply(q, s.row.entity, s.row.config).Some?
    ensures var after := Play(s, [Read(1)] + [Write(1, q)]);
            && after.row == s.row.(config := Apply(q, s.row.entity, s.row.config).value, version := s.row.version + 1)
            && Accepted(s, [Read(1)] + [Write(1, q)]) == [q]
  {
    PlayConcat(s, [Read(1)], [Write(1, q)]);
    PlayOne(s, Read(1));
    PlayOne(Act(s, Read(1)), Write(1, q));
  }

  /** Two edits replayed: the second keeps what it leaves alone of the first. */
  lemma EditAfterEdit(entity: EntityType, c: Config, first: Request, second: Request, column: Column)
    requires Apply(first, entity, c).Some? && LeavesAlone(second, entity, c, column)
    ensures var r := Replay(entity, c, [first] + [second]);
            r.Some? ==> SameIn(r.value, Apply(first, entity, c).value, column)
  {
    var both := [first] + [second];
    assert both[..|both| - 1] == [first] && both[|both| - 1] == second;
    assert [first][..0] == [];
    assert Replay(entity, c, [first]) == Apply(first, entity, c);
    assert Replay(entity, c, both) == Apply(second, entity, Apply(first, entity, c).value);
    if Apply(second, entity, Apply(first, entity, c).value).Some? {
      LeftAlone(second, entity, c, Apply(first, entity, c).value, column);
    }
  }

  /**
    A version that runs ahead of the row it was read with, by any distance, lets an accepted
    edit of any column in between be overwritten; if the request leaves that column alone,
    the outcome is not that of any serial run of the accepted edits.
   */
  lemma AheadVersionLosesEdit(row: Budget, q: Request, column: Column, amounts: map<Id, real>)
    returns (between: seq<Action>)
    requires row.version < VersionOf(q, row) && Apply(q, row.entity, row.config).Some?
    requires WithinCap(row.config, amounts) && (column == Amount ==> 0.0 < row.config.amount)
    ensures Others(between, amounts) && !FindsWhatItRead(row, q, between)
    ensures LeavesAlone(q, row.entity, row.config, column) ==> !Serial(row, Schedule(q, between))
  {
    var n := VersionOf(q, row) - row.version;
    between := Intruder(row.config, column, amounts, n);
    IntruderEdits(row, column, amounts, n);
    OthersLeaveSeen(Shared(row, map[0 := row]), between, amounts);
    ScheduleParts(row, q, between);
    if LeavesAlone(q, row.entity, row.config, column) {
      ChangeIsAccepted(row.config, row.entity, column, amounts);
      EditAfterEdit(row.entity, row.config, Change(row.config, column, amounts), q, column);
      LeftAlone(q, row.entity, row.config, row.config, column);
    }
  }

  ghost predicate AlwaysFindsWhatItRead(row: Budget, q: Request, amounts: map<Id, real>) {
    forall between :: Others(between, amounts) ==> FindsWhatItRead(row, q, between)
  }

  ghost predicate AlwaysSerial(row: Budget, q: Request, amounts: map<Id, real>) {
    forall between :: Others(between, amounts) ==> Serial(row, Schedule(q, between))
  }

  /**
    Exactly when an edit is safe: in every schedule a write that succeeds finds the
    configuration it read iff its version is not ahead of the row it read. For a request
    that leaves the amount, the fallback flag or the enabled flag alone, the same condition
    decides serializability.
   */
  lemma EditSafeIff(row: Budget, q: Request, amounts: map<Id, real>)
    requires Apply(q, row.entity, row.config).Some? && WithinCap(row.config, amounts)
    ensures AlwaysFindsWhatItRead(row, q, amounts) <==> VersionOf(q, row) <= row.version
    ensures (exists column :: LeavesAlone(q, row.entity, row.config, column)) ==>
              (AlwaysSerial(row, q, amounts) <==> VersionOf(q, row) <= row.version)
  {
    if VersionOf(q, row) <= row.version {
      forall between | Others(between, amounts)
        ensures FindsWhatItRead(row, q, between) && Serial(row, Schedule(q, between))
      {
        NotAheadIsSafe(row, q, between, amounts);
      }
    } else {
      var between := AheadVersionLosesEdit(row, q, Fallback, amounts);
      if column :| LeavesAlone(q, row.entity, row.config, column) {
        var other := AheadVersionLosesEdit(row, q, column, amounts);
      }
    }
  }

  // ----- Permissions hold over runs ----------------------------------------

  ghost predicate SameFlags(c: Config, d: Config) {
    c.isolated == d.isolated && c.allowFallback == d.allowFallback
  }

  /** Without an organisation among the callers, no run moves the flags of a user's or team's budget. */
  lemma {:induction false} FlagsNeedAuthority(s: Shared, actions: seq<Action>)
    requires s.row.entity != Org
    requires forall c :: c in s.seen ==> s.seen[c].entity == s.row.entity && SameFlags(s.seen[c].config, s.row.config)
    requires forall a :: a in actions && a.Write? ==> !a.request.caller.isOrg
    ensures var after := Play(s, actions);
            && after.row.entity == s.row.entity && SameFlags(after.row.config, s.row.config)
            && forall c :: c in after.seen ==>
                 && after.seen[c].entity == s.row.entity
                 && SameFlags(after.seen[c].config, s.row.config)
  {
    if actions != [] {
      assert actions[|actions| - 1] in actions;
      FlagsNeedAuthority(s, actions[..|actions| - 1]);
    }
  }

  /** Without a caller who may enable it, no run enables a disabled budget. */
  lemma {:induction false} EnablingNeedsPermission(s: Shared, actions: seq<Action>)
    requires !s.row.config.enabled && forall c :: c in s.seen ==> !s.seen[c].config.enabled
    requires forall a :: a in actions && a.Write? ==> !a.request.caller.mayEnable
    ensures !Play(s, actions).row.config.enabled
    ensures forall c :: c in Play(s, actions).seen ==> !Play(s, actions).seen[c].config.enabled
  {
    if actions != [] {
      assert actions[|actions| - 1] in actions;
      EnablingNeedsPermission(s, actions[..|actions| - 1]);
    }
  }

  // ----- Edits and money stay out of each other's columns -------------------

  predicate IsEditing(a: Action) {
    a.Read? || a.Write?
  }

  function WithoutEdits(actions: seq<Action>): seq<Action> {
    if actions == [] then []
    else
      var a := actions[|actions| - 1];
      WithoutEdits(actions[..|actions| - 1]) + if IsEditing(a) then [] else [a]
  }

  ghost predicate SameMoney(b: Budget, c: Budget) {
    b.usage == c.usage && b.pending == c.pending && b.periodStart == c.periodStart && b.status == c.status
  }

  /** Erasing all edits from a run changes none of the columns it accounts money in. */
  lemma {:induction false} EditsLeaveMoneyAlone(s: Shared, actions: seq<Action>)
    ensures SameMoney(Play(s, actions).row, Play(s, WithoutEdits(actions)).row)
  {
    if actions != [] {
      var init, a := actions[..|actions| - 1], actions[|actions| - 1];
      EditsLeaveMoneyAlone(s, init);
      var rest := WithoutEdits(init);
      if IsEditing(a) {
        assert rest + [] == rest;
      } else {
        assert (rest + [a])[..|rest|] == rest;
      }
    }
  }
}
