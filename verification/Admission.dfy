/**
  The pre-request decision of CheckAndReserveBudget and CheckBudget
  (internal/budget/service.go:282-371, 438-513).
 */
module Admission {
  import opened Model
  import opened Hierarchy

  /** Some matched row is the direct parent of `b` and has room for the estimate. */
  predicate ParentFits(bs: seq<Budget>, b: Budget, estimate: real) {
    b.config.parent.Some? &&
    exists p :: p in bs && p.id == b.config.parent.value && p.Remaining() >= estimate
  }

  predicate Passes(bs: seq<Budget>, b: Budget, estimate: real) {
    b.Remaining() >= estimate || (b.config.allowFallback && ParentFits(bs, b, estimate))
  }

  /** The declarative form of admission. */
  predicate Admits(bs: seq<Budget>, estimate: real) {
    forall b :: b in bs ==> Passes(bs, b, estimate)
  }

  /** Row k limits the request: the first failing isolated row, else the last failing row. */
  predicate Limits(bs: seq<Budget>, estimate: real, k: nat)
    requires k < |bs|
  {
    && !Passes(bs, bs[k], estimate)
    && if bs[k].config.isolated
       then forall i :: 0 <= i < k && bs[i].config.isolated ==> Passes(bs, bs[i], estimate)
       else forall i :: 0 <= i < |bs| && (k < i || bs[i].config.isolated) ==> Passes(bs, bs[i], estimate)
  }

  datatype Decision =
    | Allow(fallback: Option<Id>, remaining: real)
    | Deny(limiter: Id, remaining: real)

  /** The running figure reported as the remaining budget; -1 marks "not set". */
  function Reported(rs: seq<real>): real {
    if rs == [] then -1.0
    else
      var m, r := Reported(rs[..|rs| - 1]), rs[|rs| - 1];
      if m < 0.0 || r < m then r else m
  }

  function Remainings(bs: seq<Budget>): (rs: seq<real>)
    ensures |rs| == |bs|
    ensures forall i :: 0 <= i < |bs| ==> rs[i] == bs[i].Remaining()
  {
    seq(|bs|, i requires 0 <= i < |bs| => bs[i].Remaining())
  }

  /** Index of the first row with the given id, found as the source's inner loop does. */
  method FindRow(bs: seq<Budget>, id: Id) returns (found: Option<nat>)
    ensures found.Some? ==> found.value < |bs| && bs[found.value].id == id
    ensures found.None? ==> forall i :: 0 <= i < |bs| ==> bs[i].id != id
  {
    for j := 0 to |bs|
      invariant forall i :: 0 <= i < j ==> bs[i].id != id
    {
      if bs[j].id == id {
        return Some(j);
      }
    }
    return None;
  }

  /** parentMap: for each row the matched row that is its direct parent, if any. */
  ghost predicate IsParentMap(bs: seq<Budget>, parents: map<Id, Budget>) {
    forall b :: b in bs ==>
      && (b.id in parents <==> b.config.parent.Some? && b.config.parent.value in Ids(bs))
      && (b.id in parents ==> parents[b.id] in bs && parents[b.id].id == b.config.parent.value)
  }

  method ParentMap(bs: seq<Budget>) returns (parents: map<Id, Budget>)
    requires Distinct(Ids(bs))
    ensures IsParentMap(bs, parents)
  {
    parents := map[];
    for i := 0 to |bs|
      invariant forall k :: k in parents ==> exists j :: 0 <= j < i && bs[j].id == k
      invariant forall j :: 0 <= j < i ==>
                  (bs[j].id in parents <==> bs[j].config.parent.Some? && bs[j].config.parent.value in Ids(bs))
      invariant forall j :: 0 <= j < i && bs[j].id in parents ==>
                  parents[bs[j].id] in bs && parents[bs[j].id].id == bs[j].config.parent.value
    {
      assert forall j :: 0 <= j < i ==> Ids(bs)[j] != Ids(bs)[i];
      if bs[i].config.parent.Some? {
        var found := FindRow(bs, bs[i].config.parent.value);
        if found.Some? {
          assert Ids(bs)[found.value] == bs[i].config.parent.value;
          parents := parents[bs[i].id := bs[found.value]];
        }
      }
    }
  }

  /** The parent a failing row may fall back to, if it has room. */
  method FallbackParent(bs: seq<Budget>, parents: map<Id, Budget>, b: Budget, estimate: real)
    returns (parent: Option<Id>)
    requires Distinct(Ids(bs)) && b in bs && IsParentMap(bs, parents)
    ensures parent.Some? <==> b.config.allowFallback && ParentFits(bs, b, estimate)
    ensures parent.Some? ==> parent == b.config.parent
  {
    if b.MayFallBack() {
      InIds(bs, b.config.parent.value);
      SameIdSameRow(bs);
      if b.id in parents && parents[b.id].Remaining() >= estimate {
        return Some(parents[b.id].id);
      }
    }
    return None;
  }

  /** What a decision says about the sorted matched rows. */
  ghost predicate Decided(bs: seq<Budget>, estimate: real, d: Decision) {
    match d
    case Allow(fallback, remaining) =>
      && Admits(bs, estimate)
      && remaining == Reported(Remainings(bs))
      && (fallback.None? ==> forall b :: b in bs ==> b.Remaining() >= estimate)
      && (fallback.Some? ==> exists k :: 0 <= k < |bs| && FellBackAt(bs, estimate, k, fallback))
    case Deny(limiter, remaining) =>
      && !Admits(bs, estimate)
      && exists k :: 0 <= k < |bs| && DeniedAt(bs, estimate, k, limiter, remaining)
  }

  /** Row k is the last one that fell back, to the given parent. */
  ghost predicate FellBackAt(bs: seq<Budget>, estimate: real, k: nat, fallback: Option<Id>)
    requires k < |bs|
  {
    && bs[k].Remaining() < estimate && bs[k].MayFallBack() && bs[k].config.parent == fallback
    && forall i :: k < i < |bs| ==> bs[i].Remaining() >= estimate
  }

  /** Row k is the limiter; the loop has seen the rows up to k, or all of them. */
  ghost predicate DeniedAt(bs: seq<Budget>, estimate: real, k: nat, limiter: Id, remaining: real)
    requires k < |bs|
  {
    && Limits(bs, estimate, k)
    && bs[k].id == limiter
    && remaining == Reported(Remainings(if bs[k].config.isolated then bs[..k + 1] else bs))
  }

  /** Where the decision loop stands after `n` rows without a failing isolated one. */
  ghost predicate SoFar(bs: seq<Budget>, estimate: real, n: nat, limited: Option<nat>, fallback: Option<nat>)
    requires n <= |bs|
  {
    && (match limited
        case None => forall i :: 0 <= i < n ==> Passes(bs, bs[i], estimate)
        case Some(k) =>
          && k < n && !Passes(bs, bs[k], estimate) && !bs[k].config.isolated
          && forall i :: 0 <= i < n && (k < i || bs[i].config.isolated) ==> Passes(bs, bs[i], estimate))
    && (limited.None? ==>
          match fallback
          case None => forall i :: 0 <= i < n ==> bs[i].Remaining() >= estimate
          case Some(k) =>
            && k < n && bs[k].Remaining() < estimate && bs[k].MayFallBack()
            && forall i :: k < i < n ==> bs[i].Remaining() >= estimate)
  }

  function DenyAt(bs: seq<Budget>, estimate: real, k: nat, remaining: real): (d: Decision)
    requires k < |bs| && Limits(bs, estimate, k)
    requires remaining == Reported(Remainings(if bs[k].config.isolated then bs[..k + 1] else bs))
    ensures d.Deny? && Decided(bs, estimate, d)
  {
    assert bs[k] in bs;
    assert DeniedAt(bs, estimate, k, bs[k].id, remaining);
    Deny(bs[k].id, remaining)
  }

  lemma SoFarPass(bs: seq<Budget>, estimate: real, n: nat, limited: Option<nat>, fallback: Option<nat>)
    requires n < |bs| && SoFar(bs, estimate, n, limited, fallback) && bs[n].Remaining() >= estimate
    ensures SoFar(bs, estimate, n + 1, limited, fallback)
  {
  }

  lemma SoFarFallback(bs: seq<Budget>, estimate: real, n: nat, limited: Option<nat>, fallback: Option<nat>)
    requires n < |bs| && SoFar(bs, estimate, n, limited, fallback)
    requires bs[n].Remaining() < estimate && bs[n].MayFallBack() && Passes(bs, bs[n], estimate)
    ensures SoFar(bs, estimate, n + 1, limited, Some(n))
  {
  }

  lemma SoFarLimited(bs: seq<Budget>, estimate: real, n: nat, limited: Option<nat>, fallback: Option<nat>)
    requires n < |bs| && SoFar(bs, estimate, n, limited, fallback) && !Passes(bs, bs[n], estimate)
    ensures !bs[n].config.isolated ==> SoFar(bs, estimate, n + 1, Some(n), fallback)
    ensures bs[n].config.isolated ==> Limits(bs, estimate, n)
  {
  }

  lemma AtTheEnd(bs: seq<Budget>, estimate: real, limited: Option<nat>, fallback: Option<nat>)
    requires SoFar(bs, estimate, |bs|, limited, fallback)
    ensures limited.Some? ==> Limits(bs, estimate, limited.value)
    ensures limited.None? ==> Admits(bs, estimate)
    ensures limited.None? && fallback.None? ==> forall b :: b in bs ==> b.Remaining() >= estimate
    ensures limited.None? && fallback.Some? ==>
              FellBackAt(bs, estimate, fallback.value, bs[fallback.value].config.parent)
  {
  }

  /** The decision loop. It stops early at a failing isolated row. */
  method Decide(bs: seq<Budget>, estimate: real) returns (d: Decision)
    requires Distinct(Ids(bs))
    ensures Decided(bs, estimate, d)
  {
    var parents := ParentMap(bs);
    var limited: Option<nat> := None;
    var fallback: Option<nat> := None;
    var remaining := -1.0;
    for k := 0 to |bs|
      invariant remaining == Reported(Remainings(bs[..k]))
      invariant SoFar(bs, estimate, k, limited, fallback)
    {
      var b := bs[k];
      assert Remainings(bs[..k + 1])[..k] == Remainings(bs[..k]);
      if remaining < 0.0 || b.Remaining() < remaining {
        remaining := b.Remaining();
      }
      if b.Remaining() >= estimate {
        SoFarPass(bs, estimate, k, limited, fallback);
      } else {
        var parent := FallbackParent(bs, parents, b, estimate);
        if parent.Some? {
          SoFarFallback(bs, estimate, k, limited, fallback);
          fallback := Some(k);
        } else {
          SoFarLimited(bs, estimate, k, limited, fallback);
          if b.config.isolated {
            return DenyAt(bs, estimate, k, remaining);
          }
          limited := Some(k);
        }
      }
    }
    AtTheEnd(bs, estimate, limited, fallback);
    assert bs[..|bs|] == bs;
    if limited.Some? {
      return DenyAt(bs, estimate, limited.value, remaining);
    }
    d := Allow(if fallback.Some? then bs[fallback.value].config.parent else None, remaining);
  }

  /** The rows leave no choice: two decisions on the same rows are the same. */
  lemma DecisionUnique(bs: seq<Budget>, estimate: real, d: Decision, e: Decision)
    requires Decided(bs, estimate, d) && Decided(bs, estimate, e)
    ensures d == e
  {
    if d.Deny? {
      var j: nat :| j < |bs| && DeniedAt(bs, estimate, j, d.limiter, d.remaining);
      var k: nat :| k < |bs| && DeniedAt(bs, estimate, k, e.limiter, e.remaining);
      LimiterUnique(bs, estimate, j, k);
    } else {
      if d.fallback.Some? {
        var j: nat :| j < |bs| && FellBackAt(bs, estimate, j, d.fallback);
        assert bs[j] in bs;
      }
      if e.fallback.Some? {
        var k: nat :| k < |bs| && FellBackAt(bs, estimate, k, e.fallback);
        assert bs[k] in bs;
      }
    }
  }

  lemma LimiterUnique(bs: seq<Budget>, estimate: real, j: nat, k: nat)
    requires j < |bs| && k < |bs| && Limits(bs, estimate, j) && Limits(bs, estimate, k)
    ensures j == k
  {
  }

  /** Row order never changes who is admitted. */
  lemma AdmissionIgnoresOrder(bs: seq<Budget>, cs: seq<Budget>, estimate: real)
    requires multiset(bs) == multiset(cs)
    ensures Admits(bs, estimate) == Admits(cs, estimate)
    ensures Admits(Sorted(bs), estimate) == Admits(bs, estimate)
  {
    SameMembers(bs, cs);
    SortedIsPermutation(bs);
    AdmissionByMembers(bs, cs, estimate);
    AdmissionByMembers(bs, Sorted(bs), estimate);
  }

  lemma AdmissionByMembers(bs: seq<Budget>, cs: seq<Budget>, estimate: real)
    requires forall b :: b in bs <==> b in cs
    ensures Admits(bs, estimate) == Admits(cs, estimate)
  {
    assert forall b :: Passes(bs, b, estimate) == Passes(cs, b, estimate);
  }

  // ----- The reported remaining budget -------------------------------------

  ghost predicate IsMinimum(rs: seq<real>, m: real) {
    m in rs && forall i :: 0 <= i < |rs| ==> m <= rs[i]
  }

  lemma {:induction false} ReportedFigure(rs: seq<real>)
    requires rs != []
    ensures Reported(rs) in rs
    ensures Reported(rs) < 0.0 ==> Reported(rs) == rs[|rs| - 1]
    ensures rs[|rs| - 1] < 0.0 ==> Reported(rs) == rs[|rs| - 1]
    ensures (forall i :: 0 <= i < |rs| ==> 0.0 <= rs[i]) ==> IsMinimum(rs, Reported(rs))
  {
    var init := rs[..|rs| - 1];
    assert rs == init + [rs[|rs| - 1]];
    if init != [] {
      ReportedFigure(init);
    }
  }

  /**
    The reported figure is the minimum exactly when no visited row is overdrawn,
    or the last visited row is overdrawn and is itself the minimum: after an
    overdrawn row the running minimum is overwritten by the next row.
   */
  lemma ReportedIsMinimumIff(rs: seq<real>)
    requires rs != []
    ensures var last := rs[|rs| - 1];
            IsMinimum(rs, Reported(rs)) <==>
              ((forall i :: 0 <= i < |rs| ==> 0.0 <= rs[i]) || (last < 0.0 && IsMinimum(rs, last)))
  {
    ReportedFigure(rs);
  }

  lemma ReportedMissesMinimum()
    ensures Reported([-5.0, 7.0]) == 7.0 && !IsMinimum([-5.0, 7.0], 7.0)
  {
    assert [-5.0, 7.0][..1] == [-5.0];
    assert [-5.0, 7.0][0] < 7.0;
  }
}
