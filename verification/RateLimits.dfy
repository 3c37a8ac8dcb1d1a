/**
  Which limits apply to a team and model: the ordered query
  (GetAllocationsForTeamModel) and the merge loop (lookupRateLimitAllocation).
 */
module RateLimits {
  import opened Model

  datatype Limit = Limit(perUnit: nat, unit: string)

  datatype Allocation = Allocation(
    team: string,
    pattern: string,
    tokens: Option<Limit>,
    requests: Option<Limit>,
    monitoring: bool,
    enabled: bool,
    status: ApprovalStatus)

  datatype Limits = Limits(tokens: Option<Limit>, requests: Option<Limit>)

  /** HasTokenLimit, HasRequestLimit: a limit of zero counts as absent. */
  predicate Offers(l: Option<Limit>) {
    l.Some? && l.value.perUnit > 0
  }

  /** Exact match, then pattern, then the bare wildcard. */
  function Class(a: Allocation, model: string): nat {
    if a.pattern == model then 0 else if a.pattern == "*" then 2 else 1
  }

  /** The WHERE clause; `like` says which patterns SQL LIKE matches to the model. */
  predicate Applies(a: Allocation, team: string, model: string, like: set<string>) {
    && a.team == team && a.enabled && a.status == Approved
    && (a.pattern == model || a.pattern == "*" || a.pattern in like)
  }

  /** The ORDER BY clause: any order within a class. */
  ghost predicate IsAnswer(rows: seq<Allocation>, table: set<Allocation>, team: string, model: string,
                           like: set<string>) {
    && (forall a :: a in rows <==> a in table && Applies(a, team, model, like))
    && forall i, j :: 0 <= i < j < |rows| ==> Class(rows[i], model) <= Class(rows[j], model)
  }

  /** The limit of the first enforced row that offers one. */
  ghost predicate IsFirst(rows: seq<Allocation>, limit: Option<Limit>, pick: Allocation -> Option<Limit>) {
    match limit
    case None => forall i :: 0 <= i < |rows| && !rows[i].monitoring ==> !Offers(pick(rows[i]))
    case Some(_) =>
      exists k :: 0 <= k < |rows| && !rows[k].monitoring && Offers(pick(rows[k])) && pick(rows[k]) == limit &&
        forall i :: 0 <= i < k && !rows[i].monitoring ==> !Offers(pick(rows[i]))
  }

  function TokensOf(a: Allocation): Option<Limit> { a.tokens }

  function RequestsOf(a: Allocation): Option<Limit> { a.requests }

  lemma FirstStays(rows: seq<Allocation>, k: nat, limit: Option<Limit>, pick: Allocation -> Option<Limit>)
    requires k <= |rows| && limit.Some? && IsFirst(rows[..k], limit, pick)
    ensures IsFirst(rows, limit, pick)
  {
    var j :| 0 <= j < k && !rows[..k][j].monitoring && Offers(pick(rows[..k][j])) && pick(rows[..k][j]) == limit &&
      forall i :: 0 <= i < j && !rows[..k][i].monitoring ==> !Offers(pick(rows[..k][i]));
    assert rows[j] == rows[..k][j];
    assert forall i :: 0 <= i < j ==> rows[i] == rows[..k][i];
  }

  /** What one turn of the merge loop does to one limit. */
  function Merged(limit: Option<Limit>, a: Allocation, offered: Option<Limit>): Option<Limit> {
    if a.monitoring || limit.Some? || !Offers(offered) then limit else offered
  }

  lemma FirstStep(rows: seq<Allocation>, k: nat, limit: Option<Limit>, pick: Allocation -> Option<Limit>)
    requires k < |rows| && IsFirst(rows[..k], limit, pick)
    ensures IsFirst(rows[..k + 1], Merged(limit, rows[k], pick(rows[k])), pick)
  {
    assert rows[..k + 1][..k] == rows[..k];
    if limit.Some? {
      FirstStays(rows[..k + 1], k, limit, pick);
    } else {
      assert forall i :: 0 <= i < k ==> rows[..k + 1][i] == rows[..k][i];
      assert rows[..k + 1][k] == rows[k];
    }
  }

  /** The merge loop, with its early exit; None means no limit is enforced. */
  method Merge(rows: seq<Allocation>) returns (found: Option<Limits>)
    ensures found.None? ==> IsFirst(rows, None, TokensOf) && IsFirst(rows, None, RequestsOf)
    ensures found.Some? ==>
              && IsFirst(rows, found.value.tokens, TokensOf)
              && IsFirst(rows, found.value.requests, RequestsOf)
    ensures found.Some? ==> found.value.tokens.Some? || found.value.requests.Some?
  {
    var tokens: Option<Limit>, requests: Option<Limit> := None, None;
    for k := 0 to |rows|
      invariant IsFirst(rows[..k], tokens, TokensOf)
      invariant IsFirst(rows[..k], requests, RequestsOf)
    {
      var a := rows[k];
      FirstStep(rows, k, tokens, TokensOf);
      FirstStep(rows, k, requests, RequestsOf);
      if a.monitoring {
        continue;
      }
      if tokens.None? && Offers(a.tokens) {
        tokens := a.tokens;
      }
      if requests.None? && Offers(a.requests) {
        requests := a.requests;
      }
      if tokens.Some? && requests.Some? {
        FirstStays(rows, k + 1, tokens, TokensOf);
        FirstStays(rows, k + 1, requests, RequestsOf);
        return Some(Limits(tokens, requests));
      }
    }
    assert rows[..|rows|] == rows;
    found := if tokens.None? && requests.None? then None else Some(Limits(tokens, requests));
  }

  /** An enforced allocation that applies and offers the limit. */
  ghost predicate Candidate(a: Allocation, table: set<Allocation>, team: string, model: string, like: set<string>,
                            pick: Allocation -> Option<Limit>) {
    a in table && Applies(a, team, model, like) && !a.monitoring && Offers(pick(a))
  }

  /**
    The effective limit, per kind: one of the most specific candidates, or none iff there
    is no candidate.
   */
  lemma MostSpecificWins(rows: seq<Allocation>, table: set<Allocation>, team: string, model: string, like: set<string>,
                         limit: Option<Limit>, pick: Allocation -> Option<Limit>)
    requires IsAnswer(rows, table, team, model, like) && IsFirst(rows, limit, pick)
    ensures limit.None? <==> forall a :: !Candidate(a, table, team, model, like, pick)
    ensures limit.Some? ==>
              exists a :: Candidate(a, table, team, model, like, pick) && pick(a) == limit &&
                forall other :: Candidate(other, table, team, model, like, pick) ==>
                  Class(a, model) <= Class(other, model)
  {
    if limit.Some? {
      var k :| 0 <= k < |rows| && !rows[k].monitoring && Offers(pick(rows[k])) && pick(rows[k]) == limit &&
        forall i :: 0 <= i < k && !rows[i].monitoring ==> !Offers(pick(rows[i]));
      assert rows[k] in rows;
      assert Candidate(rows[k], table, team, model, like, pick);
      forall other | Candidate(other, table, team, model, like, pick)
        ensures Class(rows[k], model) <= Class(other, model)
      {
        var j :| 0 <= j < |rows| && rows[j] == other;
      }
    } else {
      forall a
        ensures !Candidate(a, table, team, model, like, pick)
      {
        if a in rows {
          var j :| 0 <= j < |rows| && rows[j] == a;
          assert rows[j].monitoring || !Offers(pick(rows[j]));
        }
      }
    }
  }

  /**
    In the columns of the allocations: the effective limit comes from an enabled, approved,
    enforced allocation of the team that sets it to more than zero, for the model itself if
    there is one, else for a pattern that matches it, else for the bare wildcard.
   */
  lemma LimitInColumns(rows: seq<Allocation>, table: set<Allocation>, team: string, model: string, like: set<string>,
                       limit: Option<Limit>, pick: Allocation -> Option<Limit>)
    requires IsAnswer(rows, table, team, model, like) && IsFirst(rows, limit, pick) && model != "*"
    ensures limit.Some? ==>
              exists a :: a in table && Enforced(a, team, pick) && pick(a) == limit &&
                (a.pattern == model || a.pattern == "*" || a.pattern in like)
    ensures forall b :: b in table && Enforced(b, team, pick) ==>
              && (b.pattern == model ==>
                    exists a :: a in table && Enforced(a, team, pick) && pick(a) == limit && a.pattern == model)
              && (b.pattern != "*" && b.pattern in like ==>
                    exists a :: a in table && Enforced(a, team, pick) && pick(a) == limit && a.pattern != "*")
              && (b.pattern == "*" ==> limit.Some?)
  {
    MostSpecificWins(rows, table, team, model, like, limit, pick);
    forall a
      ensures Candidate(a, table, team, model, like, pick) <==>
                a in table && Enforced(a, team, pick) && (a.pattern == model || a.pattern == "*" || a.pattern in like)
    {
    }
  }

  /** What the effective limits are taken from, whichever kind `pick` looks at. */
  ghost predicate Enforced(a: Allocation, team: string, pick: Allocation -> Option<Limit>) {
    && a.team == team && a.enabled && a.status == Approved && !a.monitoring
    && pick(a).Some? && 0 < pick(a).value.perUnit
  }
}
