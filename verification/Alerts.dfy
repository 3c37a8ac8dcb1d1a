/**
  The alert table: insert-if-absent, dismissal and resolution
  (internal/db/alert_repository.go), and the conditions that raise alerts
  (checkBudget, internal/alert/service.go).
 */
module Alerts {
  import opened Model
  import opened Forecast

  datatype Kind = ThresholdWarning | BudgetExhausted | ForecastOverrun | ForecastExhaustion

  datatype Status = Active | Dismissed | Resolved

  datatype Key = Key(budget: Id, kind: Kind, period: nat)

  datatype Alert = Alert(key: Key, status: Status)

  datatype Action =
    | Insert(key: Key)
    | Dismiss(index: nat)
    | DismissAll(visible: set<Id>)
    | Resolve(index: nat)
    | ResolveAll(budgets: set<Id>)

  predicate HasKey(table: seq<Alert>, key: Key) {
    exists a :: a in table && a.key == key
  }

  function Put(table: seq<Alert>, key: Key): seq<Alert> {
    if HasKey(table, key) then table else table + [Alert(key, Active)]
  }

  /** UPDATE ... WHERE status = 'active' on the selected rows. */
  function Mark(a: Alert, selected: bool, status: Status): Alert {
    if selected && a.status == Active then a.(status := status) else a
  }

  function MarkAll(table: seq<Alert>, budgets: set<Id>, status: Status): (marked: seq<Alert>)
    ensures |marked| == |table|
    ensures forall i :: 0 <= i < |table| ==> marked[i] == Mark(table[i], table[i].key.budget in budgets, status)
  {
    seq(|table|, i requires 0 <= i < |table| => Mark(table[i], table[i].key.budget in budgets, status))
  }

  function Act(table: seq<Alert>, a: Action): seq<Alert> {
    match a
    case Insert(key) => Put(table, key)
    case Dismiss(i) => if i < |table| then table[i := Mark(table[i], true, Dismissed)] else table
    case Resolve(i) => if i < |table| then table[i := Mark(table[i], true, Resolved)] else table
    case DismissAll(visible) => MarkAll(table, visible, Dismissed)
    case ResolveAll(budgets) => MarkAll(table, budgets, Resolved)
  }

  function Play(table: seq<Alert>, actions: seq<Action>): seq<Alert> {
    if actions == [] then table else Act(Play(table, actions[..|actions| - 1]), actions[|actions| - 1])
  }

  /** Resolving closes exactly the active alerts that are named, and keeps all others. */
  lemma ResolvedInColumns(table: seq<Alert>, index: nat, budgets: set<Id>)
    requires index < |table|
    ensures Act(table, Resolve(index)) ==
              if table[index].status == Active then table[index := Alert(table[index].key, Resolved)] else table
    ensures |Act(table, ResolveAll(budgets))| == |table|
    ensures forall i :: 0 <= i < |table| ==>
              Act(table, ResolveAll(budgets))[i] ==
                if table[i].status == Active && table[i].key.budget in budgets
                then Alert(table[i].key, Resolved) else table[i]
  {
  }

  ghost predicate UniqueKeys(table: seq<Alert>) {
    forall i, j :: 0 <= i < j < |table| ==> table[i].key != table[j].key
  }

  /** At most one alert per budget, kind and period, and a closed alert stays as it was closed. */
  lemma {:induction false} AlertRun(table: seq<Alert>, actions: seq<Action>)
    requires UniqueKeys(table)
    ensures var after := Play(table, actions);
            && UniqueKeys(after) && |table| <= |after|
            && forall i :: 0 <= i < |table| ==>
                 && after[i].key == table[i].key
                 && (table[i].status != Active ==> after[i].status == table[i].status)
  {
    if actions != [] {
      AlertRun(table, actions[..|actions| - 1]);
      ActKeepsAlerts(Play(table, actions[..|actions| - 1]), actions[|actions| - 1]);
    }
  }

  lemma ActKeepsAlerts(table: seq<Alert>, a: Action)
    requires UniqueKeys(table)
    ensures UniqueKeys(Act(table, a)) && |table| <= |Act(table, a)|
    ensures forall i :: 0 <= i < |table| ==>
              && Act(table, a)[i].key == table[i].key
              && (table[i].status != Active ==> Act(table, a)[i] == table[i])
  {
    if a.Insert? {
      PutKeepsAlerts(table, a.key);
    }
  }

  lemma PutKeepsAlerts(table: seq<Alert>, key: Key)
    requires UniqueKeys(table)
    ensures UniqueKeys(Put(table, key)) && table <= Put(table, key)
  {
    assert forall i :: 0 <= i < |table| ==> table[i] in table;
  }

  /** A condition that fires again in the same period does not bring a dismissed alert back. */
  lemma DismissedStaysQuiet(table: seq<Alert>, actions: seq<Action>, i: nat)
    requires UniqueKeys(table) && i < |table| && table[i].status == Dismissed
    ensures forall a :: a in Play(table, actions) && a.key == table[i].key ==> a.status == Dismissed
  {
    AlertRun(table, actions);
    var after := Play(table, actions);
    forall a | a in after && a.key == table[i].key
      ensures a.status == Dismissed
    {
      var j :| 0 <= j < |after| && after[j] == a;
      assert after[i].key == after[j].key;
    }
  }

  lemma PutKeys(table: seq<Alert>, key: Key, other: Key)
    ensures HasKey(Put(table, key), other) <==> HasKey(table, other) || other == key
  {
    if !HasKey(table, key) {
      assert Alert(key, Active) in Put(table, key);
    }
  }

  // ----- Raising alerts ----------------------------------------------------

  /** evalThresholdWarning, cleared of the division. */
  predicate OverThreshold(usage: real, amount: real, percent: nat) {
    amount > 0.0 && usage / amount >= percent as real / 100.0
  }

  predicate Exhausted(usage: real, amount: real) {
    amount > 0.0 && usage >= amount
  }

  predicate ExhaustsSoon(days: real, threshold: real) {
    0.0 <= days < threshold
  }

  predicate Fires(kind: Kind, b: Budget, percent: nat, periodUsage: real, now: nat, threshold: real)
    requires b.config.periodLength.Some?
  {
    var f := ForecastFor(b, periodUsage, now);
    match kind
    case ThresholdWarning => OverThreshold(b.usage, b.config.amount, percent)
    case BudgetExhausted => Exhausted(b.usage, b.config.amount)
    case ForecastOverrun => f.spend > b.config.amount
    case ForecastExhaustion => ExhaustsSoon(f.days, threshold)
  }

  /** Period bounds and the clock are in seconds, the forecast in hours. */
  function Hours(seconds: nat): real {
    seconds as real / 3600.0
  }

  function ForecastFor(b: Budget, periodUsage: real, now: nat): Projection
    requires b.config.periodLength.Some?
  {
    AlertForecast(b.usage, b.config.amount, Hours(b.periodStart),
                  Hours(b.periodStart + b.config.periodLength.value), periodUsage, Hours(now))
  }

  function KeyFor(b: Budget, kind: Kind): Key {
    Key(b.id, kind, b.periodStart)
  }

  const KINDS := {ThresholdWarning, BudgetExhausted, ForecastOverrun, ForecastExhaustion}

  function Firing(b: Budget, percent: nat, periodUsage: real, now: nat, threshold: real): set<Kind>
    requires b.config.periodLength.Some?
  {
    set kind | kind in KINDS && Fires(kind, b, percent, periodUsage, now, threshold)
  }

  /**
    What a check leaves: the old alerts in their places; behind them, active, each of these
    kinds of the current period that was not there yet, and nothing else.
   */
  ghost predicate Raised(before: seq<Alert>, after: seq<Alert>, b: Budget, kinds: set<Kind>) {
    && before <= after
    && (forall kind :: HasKey(after, KeyFor(b, kind)) <==> HasKey(before, KeyFor(b, kind)) || kind in kinds)
    && (forall i :: |before| <= i < |after| ==> IsNew(before, after[i], b, kinds))
    && (UniqueKeys(before) ==> UniqueKeys(after))
  }

  ghost predicate IsNew(before: seq<Alert>, a: Alert, b: Budget, kinds: set<Kind>) {
    a.status == Active && a.key == KeyFor(b, a.key.kind) && a.key.kind in kinds && !HasKey(before, a.key)
  }

  lemma ThresholdInColumns(usage: real, amount: real, percent: nat)
    ensures OverThreshold(usage, amount, percent) <==> 0.0 < amount && percent as real * amount <= usage * 100.0
  {
    if 0.0 < amount {
      var q := usage / amount;
      assert usage == amount * q;
      ScaleOrder(amount, percent as real / 100.0, q);
    }
  }

  /** When each condition fires. */
  lemma FiringInColumns(b: Budget, percent: nat, periodUsage: real, now: nat, threshold: real)
    requires b.config.periodLength.Some?
    ensures var (kinds, f) := (Firing(b, percent, periodUsage, now, threshold), ForecastFor(b, periodUsage, now));
            && (ThresholdWarning in kinds <==>
                  0.0 < b.config.amount && percent as real * b.config.amount <= b.usage * 100.0)
            && (BudgetExhausted in kinds <==> 0.0 < b.config.amount <= b.usage)
            && (ForecastOverrun in kinds <==> f.spend > b.config.amount)
            && (ForecastExhaustion in kinds <==> 0.0 <= f.days < threshold)
  {
    ThresholdInColumns(b.usage, b.config.amount, percent);
  }

  /** The forecast an alert goes by continues the pace of the period, whose bounds are in seconds. */
  lemma ForecastInSeconds(b: Budget, periodUsage: real, now: nat)
    requires b.config.periodLength.Some? && 0.0 < periodUsage
    requires b.periodStart < now <= b.periodStart + b.config.periodLength.value
    ensures var (elapsed, left) := (now - b.periodStart, b.periodStart + b.config.periodLength.value - now);
            var f := ForecastFor(b, periodUsage, now);
            && (f.spend - b.usage) * elapsed as real == periodUsage * left as real
            && (f.days > 0.0 ==> (b.config.amount - b.usage) * elapsed as real == periodUsage * 86400.0 * f.days)
  {
    var (elapsed, left) := (now - b.periodStart, b.periodStart + b.config.periodLength.value - now);
    var f := ForecastFor(b, periodUsage, now);
    GoesOnAtObservedPace(b.usage, b.config.amount, Hours(b.periodStart),
                         Hours(b.periodStart + b.config.periodLength.value), periodUsage, Hours(now));
    assert Hours(now) - Hours(b.periodStart) == elapsed as real / 3600.0;
    assert Hours(b.periodStart + b.config.periodLength.value) - Hours(now) == left as real / 3600.0;
    PerHour(f.spend - b.usage, elapsed as real, periodUsage, left as real);
    if f.days > 0.0 {
      PerHour(b.config.amount - b.usage, elapsed as real, periodUsage, f.days * 86400.0);
      Regroup(periodUsage, f.days);
    }
  }

  lemma PerHour(x: real, a: real, y: real, c: real)
    ensures x * (a / 3600.0) == y * (c / 3600.0) <==> x * a == y * c
  {
    var p, q := a / 3600.0, c / 3600.0;
    assert a == p * 3600.0 && c == q * 3600.0;
    Swap(x, p, 3600.0);
    Swap(y, q, 3600.0);
  }

  lemma RaisedInColumns(before: seq<Alert>, after: seq<Alert>, b: Budget, kinds: set<Kind>)
    requires Raised(before, after, b, kinds)
    ensures forall kind ::
              (exists a :: a in after && a.key == Key(b.id, kind, b.periodStart)) <==>
                (exists a :: a in before && a.key == Key(b.id, kind, b.periodStart)) || kind in kinds
    ensures forall a :: a in after && a !in before ==>
              a.status == Active && a.key.budget == b.id && a.key.period == b.periodStart
  {
    forall kind
      ensures (exists a :: a in after && a.key == Key(b.id, kind, b.periodStart)) <==> HasKey(after, KeyFor(b, kind))
      ensures (exists a :: a in before && a.key == Key(b.id, kind, b.periodStart)) <==> HasKey(before, KeyFor(b, kind))
    {
    }
    forall a | a in after && a !in before
      ensures a.status == Active && a.key.budget == b.id && a.key.period == b.periodStart
    {
      assert forall j :: 0 <= j < |before| ==> after[j] in before;
      var i :| 0 <= i < |after| && after[i] == a;
      assert IsNew(before, after[i], b, kinds);
    }
  }

  /** A condition that fires again in a later period adds a new alert beside the old one. */
  lemma NewPeriodNewAlert(before: seq<Alert>, after: seq<Alert>, b: Budget, kinds: set<Kind>, kind: Kind)
    requires Raised(before, after, b, kinds) && kind in kinds
    requires forall a :: a in before && a.key.budget == b.id && a.key.kind == kind ==> a.key.period < b.periodStart
    ensures before < after
    ensures exists a :: a in after && a !in before && a == Alert(Key(b.id, kind, b.periodStart), Active)
  {
    RaisedInColumns(before, after, b, kinds);
    var a :| a in after && a.key == Key(b.id, kind, b.periodStart);
    assert a !in before;
  }

  lemma RaiseOne(before: seq<Alert>, mid: seq<Alert>, b: Budget, kinds: set<Kind>, kind: Kind)
    requires Raised(before, mid, b, kinds)
    ensures Raised(before, Put(mid, KeyFor(b, kind)), b, kinds + {kind})
  {
    var key := KeyFor(b, kind);
    forall k
      ensures HasKey(Put(mid, key), KeyFor(b, k)) <==> HasKey(mid, KeyFor(b, k)) || k == kind
    {
      PutKeys(mid, key, KeyFor(b, k));
    }
    if UniqueKeys(mid) {
      PutKeepsAlerts(mid, key);
    }
  }

  lemma FiredTogether(b: Budget, percent: nat, periodUsage: real, now: nat, threshold: real)
    requires b.config.periodLength.Some? && b.periodStart < now && 0.0 < periodUsage
    ensures Fires(ForecastExhaustion, b, percent, periodUsage, now, threshold) ==>
              Fires(ForecastOverrun, b, percent, periodUsage, now, threshold)
    ensures Exhausted(b.usage, b.config.amount) && 0.0 < threshold
              && Fires(ForecastOverrun, b, percent, periodUsage, now, threshold) ==>
              Fires(ForecastExhaustion, b, percent, periodUsage, now, threshold)
  {
    WarnsIffOverrun(b.usage, b.config.amount, Hours(b.periodStart),
                    Hours(b.periodStart + b.config.periodLength.value), periodUsage, Hours(now));
  }

  class AlertTable {
    var alerts: seq<Alert>

    constructor ()
      ensures alerts == []
    {
      alerts := [];
    }

    method InsertAlertIfNotExists(key: Key)
      modifies this
      ensures alerts == Act(old(alerts), Insert(key))
      ensures alerts == if exists a :: a in old(alerts) && a.key == key then old(alerts)
                        else old(alerts) + [Alert(key, Active)]
    {
      for i := 0 to |alerts|
        invariant alerts == old(alerts)
        invariant forall j :: 0 <= j < i ==> alerts[j].key != key
      {
        if alerts[i].key == key {
          assert alerts[i] in alerts;
          return;
        }
      }
      alerts := alerts + [Alert(key, Active)];
    }

    /** False when the alert does not exist or is not active. */
    method DismissAlert(i: nat) returns (ok: bool)
      modifies this
      ensures ok <==> i < |old(alerts)| && old(alerts)[i].status == Active
      ensures alerts == Act(old(alerts), Dismiss(i))
      ensures if ok then alerts == old(alerts)[i := Alert(old(alerts)[i].key, Dismissed)] else alerts == old(alerts)
    {
      ok := i < |alerts| && alerts[i].status == Active;
      if ok {
        alerts := alerts[i := alerts[i].(status := Dismissed)];
      }
    }

    method DismissAllAlerts(visible: set<Id>) returns (count: nat)
      modifies this
      ensures alerts == Act(old(alerts), DismissAll(visible))
      ensures |alerts| == |old(alerts)|
      ensures forall i :: 0 <= i < |alerts| ==>
                alerts[i] ==
                  if old(alerts)[i].status == Active && old(alerts)[i].key.budget in visible
                  then Alert(old(alerts)[i].key, Dismissed) else old(alerts)[i]
      ensures count == |set i | 0 <= i < |old(alerts)| && old(alerts)[i].status == Active
                && old(alerts)[i].key.budget in visible|
    {
      ghost var before := alerts;
      ghost var hit: set<nat> := {};
      count := 0;
      for i := 0 to |alerts|
        invariant |alerts| == |before|
        invariant forall j :: 0 <= j < i ==> alerts[j] == Mark(before[j], before[j].key.budget in visible, Dismissed)
        invariant forall j :: i <= j < |alerts| ==> alerts[j] == before[j]
        invariant hit == set j | 0 <= j < i && before[j].status == Active && before[j].key.budget in visible
        invariant count == |hit|
      {
        if alerts[i].status == Active && alerts[i].key.budget in visible {
          alerts := alerts[i := alerts[i].(status := Dismissed)];
          hit := hit + {i};
          count := count + 1;
        }
      }
      assert alerts == Act(before, DismissAll(visible));
    }

    method InsertFor(b: Budget, kind: Kind, ghost before: seq<Alert>, ghost kinds: set<Kind>)
      requires Raised(before, alerts, b, kinds)
      modifies this
      ensures Raised(before, alerts, b, kinds + {kind})
    {
      RaiseOne(before, alerts, b, kinds, kind);
      InsertAlertIfNotExists(KeyFor(b, kind));
    }

    /** One insert per condition that fires. */
    method RaiseFiring(b: Budget, percent: nat, periodUsage: real, now: nat, threshold: real)
      requires b.config.periodLength.Some?
      modifies this
      ensures Raised(old(alerts), alerts, b, Firing(b, percent, periodUsage, now, threshold))
    {
      var f := ForecastFor(b, periodUsage, now);
      ghost var before := alerts;
      ghost var kinds: set<Kind> := {};
      if OverThreshold(b.usage, b.config.amount, percent) {
        InsertFor(b, ThresholdWarning, before, kinds);
        kinds := kinds + {ThresholdWarning};
      }
      if Exhausted(b.usage, b.config.amount) {
        InsertFor(b, BudgetExhausted, before, kinds);
        kinds := kinds + {BudgetExhausted};
      }
      if f.spend > b.config.amount {
        InsertFor(b, ForecastOverrun, before, kinds);
        kinds := kinds + {ForecastOverrun};
      }
      if ExhaustsSoon(f.days, threshold) {
        InsertFor(b, ForecastExhaustion, before, kinds);
        kinds := kinds + {ForecastExhaustion};
      }
      assert kinds == Firing(b, percent, periodUsage, now, threshold);
    }

    /** checkBudget, in the columns of the budget and of the alerts. */
    method CheckBudget(b: Budget, percent: nat, periodUsage: real, now: nat, threshold: real)
      requires b.config.periodLength.Some?
      modifies this
      ensures Raised(old(alerts), alerts, b, Firing(b, percent, periodUsage, now, threshold))
      ensures (exists a :: a in alerts && a.key == Key(b.id, ThresholdWarning, b.periodStart)) <==>
                (exists a :: a in old(alerts) && a.key == Key(b.id, ThresholdWarning, b.periodStart)) ||
                (0.0 < b.config.amount && percent as real * b.config.amount <= b.usage * 100.0)
      ensures (exists a :: a in alerts && a.key == Key(b.id, BudgetExhausted, b.periodStart)) <==>
                (exists a :: a in old(alerts) && a.key == Key(b.id, BudgetExhausted, b.periodStart)) ||
                (0.0 < b.config.amount <= b.usage)
      ensures (exists a :: a in alerts && a.key == Key(b.id, ForecastOverrun, b.periodStart)) <==>
                (exists a :: a in old(alerts) && a.key == Key(b.id, ForecastOverrun, b.periodStart)) ||
                ForecastFor(b, periodUsage, now).spend > b.config.amount
      ensures (exists a :: a in alerts && a.key == Key(b.id, ForecastExhaustion, b.periodStart)) <==>
                (exists a :: a in old(alerts) && a.key == Key(b.id, ForecastExhaustion, b.periodStart)) ||
                0.0 <= ForecastFor(b, periodUsage, now).days < threshold
      ensures forall a :: a in alerts && a !in old(alerts) ==>
                a.status == Active && a.key.budget == b.id && a.key.period == b.periodStart
    {
      ghost var before := alerts;
      RaiseFiring(b, percent, periodUsage, now, threshold);
      FiringInColumns(b, percent, periodUsage, now, threshold);
      RaisedInColumns(before, alerts, b, Firing(b, percent, periodUsage, now, threshold));
    }
  }
}
