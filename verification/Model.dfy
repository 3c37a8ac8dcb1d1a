/**
  Rows of the quota database: budgets, reservations and usage records
  (internal/models/models.go, migrations/001_initial.sql).

  Money is an exact `real`; instants and durations are natural numbers.
 */
module Model {
  type Id = nat         // budget_definitions.id
  type RequestId = nat  // the request id of one gateway stream

  datatype Option<+T> = None | Some(value: T)

  datatype EntityType = User | Team | Org

  datatype ApprovalStatus = Pending | Approved | Rejected | Closed

  /** The columns that an edit of a budget may write. */
  datatype Config = Config(
    amount: real,
    periodLength: Option<nat>,  // None: a custom period without a length
    parent: Option<Id>,
    isolated: bool,
    allowFallback: bool,
    enabled: bool)

  datatype Budget = Budget(
    id: Id,
    entity: EntityType,
    config: Config,
    status: ApprovalStatus,
    usage: real,
    pending: real,
    periodStart: nat,
    version: nat)
  {
    /** CalculateRemaining: what admission compares with an estimate. */
    function Remaining(): real {
      config.amount - usage - pending
    }

    /** Spare room that a settlement may fill; pending does not count against it. */
    function Room(): real {
      Max0(config.amount - usage)
    }

    predicate IsRoot() {
      config.parent.None?
    }

    predicate MayFallBack() {
      config.allowFallback && config.parent.Some?
    }
  }

  datatype Hold = Hold(budget: Id, request: RequestId, estimate: real, expires: nat)

  datatype Record = Record(request: RequestId, cost: real, at: nat)

  function Max0(x: real): real {
    if x < 0.0 then 0.0 else x
  }

  ghost predicate Distinct<T(!new)>(s: seq<T>) {
    forall i, j :: 0 <= i < j < |s| ==> s[i] != s[j]
  }

  function Ids(bs: seq<Budget>): (ids: seq<Id>)
    ensures |ids| == |bs|
    ensures forall i :: 0 <= i < |bs| ==> ids[i] == bs[i].id
  {
    seq(|bs|, i requires 0 <= i < |bs| => bs[i].id)
  }

  /** Every row is stored under its own id. */
  ghost predicate Keyed(rows: map<Id, Budget>) {
    forall i :: i in rows ==> rows[i].id == i
  }

  function RowsOf(rows: map<Id, Budget>, ids: seq<Id>): (bs: seq<Budget>)
    requires forall i :: 0 <= i < |ids| ==> ids[i] in rows
    ensures |bs| == |ids|
    ensures forall i :: 0 <= i < |ids| ==> bs[i] == rows[ids[i]]
  {
    seq(|ids|, i requires 0 <= i < |ids| => rows[ids[i]])
  }

  lemma IdsOfRows(rows: map<Id, Budget>, ids: seq<Id>)
    requires Keyed(rows)
    requires forall i :: 0 <= i < |ids| ==> ids[i] in rows
    ensures Ids(RowsOf(rows, ids)) == ids
  {
  }

  /** The tables agree on everything that an edit or a delete could change. */
  ghost predicate SameShape(rows: map<Id, Budget>, other: map<Id, Budget>) {
    && rows.Keys == other.Keys
    && forall i :: i in rows ==>
         && rows[i].id == other[i].id
         && rows[i].entity == other[i].entity
         && rows[i].config == other[i].config
         && rows[i].status == other[i].status
  }
}
