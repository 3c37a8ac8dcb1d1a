/**
  Settlement's "bucket fill": the actual cost of a request flows up a path of
  budgets, each non-isolated child taking what fits and passing on the rest
  (DecrementBudgets, internal/budget/service.go:656-737).
 */
module BucketFill {
  import opened Model

  /** The charge of one row when `left` dollars are still to be placed. */
  function Charge(b: Budget, left: real): real {
    if b.config.isolated || b.IsRoot() then left
    else
      var room := b.config.amount - b.usage;
      if room <= 0.0 then 0.0
      else if left > room then room
      else left
  }

  /** What the next row sees. An isolated row is charged but passes everything on. */
  function Rest(b: Budget, left: real): real {
    if b.config.isolated then left else left - Charge(b, left)
  }

  function Remainder(path: seq<Budget>, cost: real): real {
    if path == [] then cost
    else Rest(path[|path| - 1], Remainder(path[..|path| - 1], cost))
  }

  /** Total charged to budget `id`. */
  function ChargeFor(path: seq<Budget>, cost: real, id: Id): real {
    if path == [] then 0.0
    else
      var init, b := path[..|path| - 1], path[|path| - 1];
      ChargeFor(init, cost, id) + if b.id == id then Charge(b, Remainder(init, cost)) else 0.0
  }

  /** Total charged to the non-isolated rows. */
  function Placed(path: seq<Budget>, cost: real): real {
    if path == [] then 0.0
    else
      var init, b := path[..|path| - 1], path[|path| - 1];
      Placed(init, cost) + if b.config.isolated then 0.0 else Charge(b, Remainder(init, cost))
  }

  ghost predicate OpenPath(path: seq<Budget>) {
    forall i :: 0 <= i < |path| ==> !path[i].config.isolated
  }

  lemma {:induction false} RemainderBounds(path: seq<Budget>, cost: real)
    requires 0.0 <= cost
    ensures 0.0 <= Remainder(path, cost) <= cost
  {
    if path != [] {
      RemainderBounds(path[..|path| - 1], cost);
    }
  }

  lemma {:induction false} ChargeForAbsent(path: seq<Budget>, cost: real, id: Id)
    requires forall i :: 0 <= i < |path| ==> path[i].id != id
    ensures ChargeFor(path, cost, id) == 0.0
  {
    if path != [] {
      ChargeForAbsent(path[..|path| - 1], cost, id);
    }
  }

  /** A row on the path is charged exactly by its own turn. */
  lemma {:induction false} ChargeForAt(path: seq<Budget>, cost: real, k: nat)
    requires Distinct(Ids(path)) && k < |path|
    ensures ChargeFor(path, cost, path[k].id) == Charge(path[k], Remainder(path[..k], cost))
  {
    var n := |path| - 1;
    var init := path[..n];
    assert forall i :: 0 <= i < n ==> Ids(path)[i] == Ids(init)[i];
    if k == n {
      forall i | 0 <= i < n
        ensures init[i].id != path[n].id
      {
        assert Ids(path)[i] != Ids(path)[n];
      }
      ChargeForAbsent(init, cost, path[n].id);
    } else {
      assert Ids(path)[k] != Ids(path)[n];
      assert init[..k] == path[..k];
      ChargeForAt(init, cost, k);
    }
  }

  lemma ChargeForBounds(path: seq<Budget>, cost: real, id: Id)
    requires Distinct(Ids(path)) && 0.0 <= cost
    ensures 0.0 <= ChargeFor(path, cost, id) <= cost
  {
    if k: nat :| k < |path| && path[k].id == id {
      ChargeForAt(path, cost, k);
      RemainderBounds(path[..k], cost);
    } else {
      ChargeForAbsent(path, cost, id);
    }
  }

  // ----- Conservation ------------------------------------------------------

  /** No dollar is lost or invented: placed plus unplaced is the cost. */
  lemma {:induction false} Conservation(path: seq<Budget>, cost: real)
    ensures Placed(path, cost) + Remainder(path, cost) == cost
  {
    if path != [] {
      Conservation(path[..|path| - 1], cost);
    }
  }

  /** A non-isolated root anywhere on the path leaves nothing unplaced. */
  lemma {:induction false} RootTakesRest(path: seq<Budget>, cost: real, k: nat)
    requires 0.0 <= cost && k < |path|
    requires path[k].IsRoot() && !path[k].config.isolated
    ensures Remainder(path, cost) == 0.0
    ensures Placed(path, cost) == cost
  {
    var init := path[..|path| - 1];
    if k < |init| {
      RootTakesRest(init, cost, k);
    }
    Conservation(path, cost);
  }

  // ----- Isolation ---------------------------------------------------------

  function OpenPart(path: seq<Budget>): seq<Budget> {
    if path == [] then []
    else
      var b := path[|path| - 1];
      OpenPart(path[..|path| - 1]) + if b.config.isolated then [] else [b]
  }

  /**
    An isolated budget shields nobody: every non-isolated row is charged as if the
    isolated rows were not there, and the same amount is left unplaced.
    (docs/ARCH.md:187 describes the opposite.)
   */
  lemma {:induction false} IsolationShieldsNobody(path: seq<Budget>, cost: real, id: Id)
    requires forall i :: 0 <= i < |path| && path[i].id == id ==> !path[i].config.isolated
    ensures ChargeFor(OpenPart(path), cost, id) == ChargeFor(path, cost, id)
    ensures Remainder(OpenPart(path), cost) == Remainder(path, cost)
  {
    if path != [] {
      var init, b := path[..|path| - 1], path[|path| - 1];
      IsolationShieldsNobody(init, cost, id);
      var open := OpenPart(init);
      if b.config.isolated {
        assert open + [] == open;
      } else {
        assert (open + [b])[..|open|] == open;
      }
    }
  }

  // ----- Closed form -------------------------------------------------------

  /** Spare room of the non-isolated rows. */
  function Spare(path: seq<Budget>): real {
    if path == [] then 0.0
    else
      var b := path[|path| - 1];
      Spare(path[..|path| - 1]) + if b.config.isolated then 0.0 else b.Room()
  }

  ghost predicate HasOpenRoot(path: seq<Budget>) {
    exists i :: 0 <= i < |path| && path[i].IsRoot() && !path[i].config.isolated
  }

  lemma {:induction false} RemainderClosedForm(path: seq<Budget>, cost: real)
    requires 0.0 <= cost
    ensures Remainder(path, cost) == if HasOpenRoot(path) then 0.0 else Max0(cost - Spare(path))
  {
    if path != [] {
      var init, b := path[..|path| - 1], path[|path| - 1];
      if b.IsRoot() && !b.config.isolated {
        RootTakesRest(path, cost, |path| - 1);
      } else {
        RemainderClosedForm(init, cost);
        SpareNonNegative(init);
        assert HasOpenRoot(path) == HasOpenRoot(init) by {
          assert forall i :: 0 <= i < |init| ==> init[i] == path[i];
        }
      }
    }
  }

  lemma {:induction false} SpareNonNegative(path: seq<Budget>)
    ensures 0.0 <= Spare(path)
  {
    if path != [] {
      SpareNonNegative(path[..|path| - 1]);
    }
  }

  /**
    The fill as a formula: a parented row gets the part of the cost lying between
    the total room before it and its own room on top of that.
   */
  lemma ChargeClosedForm(path: seq<Budget>, cost: real, k: nat)
    requires Distinct(Ids(path)) && 0.0 <= cost && k < |path|
    ensures var b, left := path[k], if HasOpenRoot(path[..k]) then 0.0 else Max0(cost - Spare(path[..k]));
            ChargeFor(path, cost, b.id) ==
              if b.config.isolated || b.IsRoot() || left <= b.Room() then left else b.Room()
  {
    ChargeForAt(path, cost, k);
    RemainderClosedForm(path[..k], cost);
  }

  /** A row is charged only if every earlier non-isolated row is parented and now full. */
  lemma ChargedOnlyAfterFull(path: seq<Budget>, cost: real, j: nat, k: nat)
    requires Distinct(Ids(path)) && 0.0 <= cost && j < k < |path|
    requires ChargeFor(path, cost, path[k].id) > 0.0
    requires !path[j].config.isolated
    ensures path[j].config.parent.Some?
    ensures path[j].usage + ChargeFor(path, cost, path[j].id) >= path[j].config.amount
  {
    ChargeForAt(path, cost, k);
    ChargeForAt(path, cost, j);
    LeftoverMeansFull(path[..k], cost, j);
    assert path[..k][..j] == path[..j];
  }

  lemma {:induction false} LeftoverMeansFull(path: seq<Budget>, cost: real, j: nat)
    requires 0.0 <= cost && j < |path|
    requires Remainder(path, cost) > 0.0 && !path[j].config.isolated
    ensures path[j].config.parent.Some?
    ensures path[j].usage + Charge(path[j], Remainder(path[..j], cost)) >= path[j].config.amount
  {
    var init := path[..|path| - 1];
    RemainderBounds(init, cost);
    if j < |init| {
      assert init[..j] == path[..j];
      LeftoverMeansFull(init, cost, j);
    }
  }

  /** One fill never takes a non-isolated child past its amount. */
  lemma ChargeStaysWithinAmount(path: seq<Budget>, cost: real, k: nat)
    requires Distinct(Ids(path)) && 0.0 <= cost && k < |path|
    requires !path[k].config.isolated && path[k].config.parent.Some?
    ensures ChargeFor(path, cost, path[k].id) > 0.0 ==>
              path[k].usage + ChargeFor(path, cost, path[k].id) <= path[k].config.amount
  {
    ChargeForAt(path, cost, k);
  }

  /** What passes every cost on. */
  predicate Full(row: Budget) {
    row.config.isolated || row.config.amount <= row.usage
  }

  lemma {:induction false} FullPassesOn(bs: seq<Budget>, cost: real)
    requires 0.0 <= cost && forall j :: 0 <= j < |bs| ==> bs[j].config.parent.Some? && Full(bs[j])
    ensures Remainder(bs, cost) == cost
  {
    if bs != [] {
      FullPassesOn(bs[..|bs| - 1], cost);
    }
  }

  // ----- Path independence -------------------------------------------------

  function Filled(path: seq<Budget>, cost: real): (filled: seq<Budget>)
    ensures |filled| == |path|
  {
    if path == [] then []
    else
      var init, b := path[..|path| - 1], path[|path| - 1];
      Filled(init, cost) + [b.(usage := b.usage + Charge(b, Remainder(init, cost)))]
  }

  lemma ChargesCompose(b: Budget, x: real, y: real)
    requires 0.0 <= x && 0.0 <= y
    ensures var b' := b.(usage := b.usage + Charge(b, x));
            && Charge(b, x) + Charge(b', y) == Charge(b, x + y)
            && Rest(b, x) + Rest(b', y) == Rest(b, x + y)
            && 0.0 <= Rest(b, x) && 0.0 <= Rest(b', y)
  {
  }

  /** Filling twice equals filling once with the sum, on every row and in what is left. */
  lemma {:induction false} FillsCompose(path: seq<Budget>, c1: real, c2: real)
    requires 0.0 <= c1 && 0.0 <= c2
    ensures Filled(Filled(path, c1), c2) == Filled(path, c1 + c2)
    ensures Remainder(path, c1) + Remainder(Filled(path, c1), c2) == Remainder(path, c1 + c2)
    ensures 0.0 <= Remainder(Filled(path, c1), c2)
  {
    RemainderBounds(Filled(path, c1), c2);
    if path != [] {
      var init, b := path[..|path| - 1], path[|path| - 1];
      FillsCompose(init, c1, c2);
      var x, y := Remainder(init, c1), Remainder(Filled(init, c1), c2);
      RemainderBounds(init, c1);
      var once := Filled(path, c1);
      assert once[..|path| - 1] == Filled(init, c1);
      assert once[|path| - 1] == b.(usage := b.usage + Charge(b, x));
      ChargesCompose(b, x, y);
    }
  }

  lemma FillsCommute(path: seq<Budget>, c1: real, c2: real)
    requires 0.0 <= c1 && 0.0 <= c2
    ensures Filled(Filled(path, c1), c2) == Filled(Filled(path, c2), c1)
  {
    FillsCompose(path, c1, c2);
    FillsCompose(path, c2, c1);
    assert c1 + c2 == c2 + c1;
  }
}
