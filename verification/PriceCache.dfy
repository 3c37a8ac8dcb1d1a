/**
  The model-price cache (GetModelCost, RefreshModelCostCache). `table` is the price table
  in the database and `base` strips a version suffix from a model id.
 */
module PriceCache {
  import opened Model
  import opened Pricing

  /** The uncached rule: exact id first, then the id without its version suffix. */
  function Uncached(table: map<string, Price>, base: string -> string, model: string): Option<Price> {
    if model in table then Some(table[model])
    else if base(model) != model && base(model) in table then Some(table[base(model)])
    else None
  }

  /** A listed model has its own price, an unlisted one that of its base model, if that is listed. */
  lemma BasePriceForVersions(table: map<string, Price>, base: string -> string, model: string)
    ensures model in table ==> Uncached(table, base, model) == Some(table[model])
    ensures model !in table && base(model) in table ==> Uncached(table, base, model) == Some(table[base(model)])
    ensures model !in table && base(model) !in table ==> Uncached(table, base, model) == None
  {
  }

  datatype Cache = Cache(costs: map<string, Price>, expiresAt: nat)

  function Hits(c: Cache, model: string, now: nat): bool {
    now < c.expiresAt && model in c.costs
  }

  function Answer(c: Cache, table: map<string, Price>, base: string -> string, model: string, now: nat): Option<Price> {
    if Hits(c, model, now) then Some(c.costs[model]) else Uncached(table, base, model)
  }

  /** A miss that finds a price stores it, and restarts the lifetime of the whole cache if it had run out. */
  function AfterGet(c: Cache, table: map<string, Price>, base: string -> string, model: string, now: nat,
                    ttl: nat): Cache {
    match Uncached(table, base, model)
    case Some(p) =>
      if Hits(c, model, now) then c
      else Cache(c.costs[model := p], if now > c.expiresAt then now + ttl else c.expiresAt)
    case None => c
  }

  class PriceCache {
    var costs: map<string, Price>
    var expiresAt: nat
    const ttl: nat

    function State(): Cache
      reads this
    {
      Cache(costs, expiresAt)
    }

    constructor (ttl: nat)
      ensures State() == Cache(map[], 0) && this.ttl == ttl
    {
      costs, expiresAt, this.ttl := map[], 0, ttl;
    }

    method GetModelCost(table: map<string, Price>, base: string -> string, model: string, now: nat)
      returns (cost: Option<Price>)
      modifies this
      ensures cost == Answer(old(State()), table, base, model, now)
      ensures State() == if Hits(old(State()), model, now) then old(State())
                         else AfterGet(old(State()), table, base, model, now, ttl)
    {
      if now < expiresAt {
        if model in costs {
          return Some(costs[model]);
        }
      }
      cost := if model in table then Some(table[model]) else None;
      if cost.None? {
        var stripped := base(model);
        if stripped != model && stripped in table {
          cost := Some(table[stripped]);
        }
      }
      if cost.Some? {
        costs := costs[model := cost.value];
        if now > expiresAt {
          expiresAt := now + ttl;
        }
      }
    }

    method Refresh(table: map<string, Price>, now: nat)
      modifies this
      ensures State() == Cache(table, now + ttl)
    {
      costs, expiresAt := table, now + ttl;
    }
  }

  // ----- While prices do not change ----------------------------------------

  datatype Use = Get(model: string, now: nat) | Refill(now: nat)

  function After(c: Cache, table: map<string, Price>, base: string -> string, ttl: nat, u: Use): Cache {
    match u
    case Get(model, now) => if Hits(c, model, now) then c else AfterGet(c, table, base, model, now, ttl)
    case Refill(now) => Cache(table, now + ttl)
  }

  function AfterAll(c: Cache, table: map<string, Price>, base: string -> string, ttl: nat, us: seq<Use>): Cache {
    if us == [] then c
    else After(AfterAll(c, table, base, ttl, us[..|us| - 1]), table, base, ttl, us[|us| - 1])
  }

  ghost predicate Coherent(c: Cache, table: map<string, Price>, base: string -> string) {
    forall m :: m in c.costs ==> Uncached(table, base, m) == Some(c.costs[m])
  }

  /** Whatever was asked before and whenever, an answer is the uncached one. */
  lemma {:induction false} AnswersAreUncached(c: Cache, table: map<string, Price>, base: string -> string, ttl: nat,
                                              us: seq<Use>, model: string, now: nat)
    requires Coherent(c, table, base)
    ensures Coherent(AfterAll(c, table, base, ttl, us), table, base)
    ensures Answer(AfterAll(c, table, base, ttl, us), table, base, model, now) == Uncached(table, base, model)
  {
    if us != [] {
      AnswersAreUncached(c, table, base, ttl, us[..|us| - 1], model, now);
    }
  }

  // ----- After a price change ----------------------------------------------

  /**
    When the cache expires after a run, told without looking at its entries: a refill restarts
    the lifetime, and so does a lookup of any priced model once the lifetime is over.
   */
  function Lifetime(expiresAt: nat, table: map<string, Price>, base: string -> string, ttl: nat, us: seq<Use>): nat {
    if us == [] then expiresAt
    else
      var before := Lifetime(expiresAt, table, base, ttl, us[..|us| - 1]);
      match us[|us| - 1]
      case Refill(now) => now + ttl
      case Get(model, now) => if before < now && Uncached(table, base, model).Some? then now + ttl else before
  }

  lemma {:induction false} ExpiryMoves(c: Cache, table: map<string, Price>, base: string -> string, ttl: nat,
                                       us: seq<Use>)
    ensures AfterAll(c, table, base, ttl, us).expiresAt == Lifetime(c.expiresAt, table, base, ttl, us)
  {
    if us != [] {
      ExpiryMoves(c, table, base, ttl, us[..|us| - 1]);
    }
  }

  /** The run neither refills the cache nor looks the model up, with success, outside its lifetime. */
  ghost predicate Untouched(expiresAt: nat, table: map<string, Price>, base: string -> string, ttl: nat, us: seq<Use>,
                            model: string) {
    us != [] ==>
      var init, u := us[..|us| - 1], us[|us| - 1];
      && Untouched(expiresAt, table, base, ttl, init, model)
      && u.Get?
      && (u.model == model ==>
        u.now < Lifetime(expiresAt, table, base, ttl, init) || Uncached(table, base, model).None?)
  }

  /**
    Exactly when a price that has changed in the table is still served, after any uses of the
    cache since the change: nothing has fetched it again, and the lifetime the run has left
    the cache is not over.
   */
  lemma OldPriceServedIff(c: Cache, table: map<string, Price>, base: string -> string, ttl: nat, us: seq<Use>,
                          model: string, later: nat)
    requires model in c.costs && Uncached(table, base, model) != Some(c.costs[model])
    ensures Answer(AfterAll(c, table, base, ttl, us), table, base, model, later) == Some(c.costs[model]) <==>
              && Untouched(c.expiresAt, table, base, ttl, us, model)
              && later < Lifetime(c.expiresAt, table, base, ttl, us)
  {
    ExpiryMoves(c, table, base, ttl, us);
    EntryStays(c, table, base, ttl, us, model);
  }

  lemma {:induction false} EntryStays(c: Cache, table: map<string, Price>, base: string -> string, ttl: nat,
                                      us: seq<Use>, model: string)
    requires model in c.costs && Uncached(table, base, model) != Some(c.costs[model])
    ensures var after := AfterAll(c, table, base, ttl, us);
            if Untouched(c.expiresAt, table, base, ttl, us, model)
            then model in after.costs && after.costs[model] == c.costs[model]
            else model in after.costs ==> Some(after.costs[model]) == Uncached(table, base, model)
  {
    if us != [] {
      EntryStays(c, table, base, ttl, us[..|us| - 1], model);
      ExpiryMoves(c, table, base, ttl, us[..|us| - 1]);
    }
  }

  /**
    The lifetime belongs to the cache, not to its entries: once it has run out, a lookup of
    any other model brings every old entry back for another lifetime, so a changed price
    may stay unseen for as long as lookups keep coming.
   */
  lemma ExpiredEntryRevives(c: Cache, table: map<string, Price>, base: string -> string, ttl: nat,
                            stale: string, other: string, now: nat, later: nat)
    requires stale in c.costs && other != stale && Uncached(table, base, other).Some?
    requires c.expiresAt < now <= later < now + ttl
    ensures Answer(c, table, base, stale, now) == Uncached(table, base, stale)
    ensures Answer(After(c, table, base, ttl, Get(other, now)), table, base, stale, later) == Some(c.costs[stale])
  {
  }
}
