/**
  Prices, estimates and actual costs (CalculateCost, EstimateCost), and what they
  mean for the overspend bound.
 */
module Pricing {
  import opened Model
  import opened Database
  import opened Requests
  import opened PendingUsage
  import opened Overspend

  datatype Price = Price(input: real, output: real)  // dollars per million tokens

  datatype Lookup = Found(price: Price) | NotFound | Failed

  const DEFAULT_PRICE := Price(1.0, 3.0)
  const FALLBACK_ESTIMATE := 0.01

  datatype Estimation = Estimation(inputTokens: nat, outputTokens: nat, multiplier: real)

  function TokenCost(tokens: nat, perMillion: real): real {
    tokens as real * perMillion / 1000000.0
  }

  function CostAt(p: Price, input: nat, output: nat): real {
    TokenCost(input, p.input) + TokenCost(output, p.output)
  }

  /** None: the lookup failed for a reason other than a missing model. */
  function CalculateCost(found: Lookup, input: nat, output: nat): Option<real> {
    match found
    case Found(p) => Some(CostAt(p, input, output))
    case NotFound => Some(CostAt(DEFAULT_PRICE, input, output))
    case Failed => None
  }

  function Padded(cost: real, multiplier: real): real {
    cost * multiplier
  }

  function EstimateCost(found: Lookup, cfg: Estimation): real {
    match CalculateCost(found, cfg.inputTokens, cfg.outputTokens)
    case Some(cost) => Padded(cost, cfg.multiplier)
    case None => FALLBACK_ESTIMATE
  }

  /**
    What tokens cost: a million input tokens cost the input price, a million output tokens
    the output price, and costs add up; a model without a price costs as one priced at 1 and 3.
   */
  lemma CostIsPerMillion(p: Price, found: Lookup, a: nat, b: nat, c: nat, d: nat)
    ensures CalculateCost(Found(p), 1000000, 0) == Some(p.input)
    ensures CalculateCost(Found(p), 0, 1000000) == Some(p.output)
    ensures CalculateCost(NotFound, a, b) == CalculateCost(Found(Price(1.0, 3.0)), a, b)
    ensures CalculateCost(found, a, b).None? <==> found.Failed?
    ensures !found.Failed? ==>
              CalculateCost(found, a + c, b + d).value ==
                CalculateCost(found, a, b).value + CalculateCost(found, c, d).value
  {
    if !found.Failed? {
      var q := if found.Found? then found.price else Price(1.0, 3.0);
      TokensAdd(a, c, q.input);
      TokensAdd(b, d, q.output);
    }
  }

  lemma TokensAdd(a: nat, b: nat, price: real)
    ensures TokenCost(a + b, price) == TokenCost(a, price) + TokenCost(b, price)
  {
    assert (a + b) as real == a as real + b as real;
  }

  /** An estimate is the cost of the configured tokens times the multiplier, or one cent. */
  lemma EstimateIsPaddedCost(found: Lookup, cfg: Estimation)
    ensures var cost := CalculateCost(found, cfg.inputTokens, cfg.outputTokens);
            EstimateCost(found, cfg) == if cost.Some? then cost.value * cfg.multiplier else 0.01
  {
  }

  predicate NonNegative(found: Lookup) {
    found.Found? ==> 0.0 <= found.price.input && 0.0 <= found.price.output
  }

  lemma TokensMonotone(price: real, few: nat, many: nat)
    requires 0.0 <= price && few <= many
    ensures 0.0 <= TokenCost(few, price) <= TokenCost(many, price)
  {
    assert (many as real - few as real) * price >= 0.0;
    assert few as real * price >= 0.0;
  }

  /** With an unchanged price and tokens within the configured guess, actual <= estimate. */
  lemma EstimateCoversActual(found: Lookup, cfg: Estimation, input: nat, output: nat)
    requires NonNegative(found) && !found.Failed? && 1.0 <= cfg.multiplier
    requires input <= cfg.inputTokens && output <= cfg.outputTokens
    ensures 0.0 <= CalculateCost(found, input, output).value <= EstimateCost(found, cfg)
  {
    var p := if found.Found? then found.price else DEFAULT_PRICE;
    CostMonotone(p, input, output, cfg);
    PaddingCovers(CostAt(p, cfg.inputTokens, cfg.outputTokens), cfg.multiplier);
  }

  lemma CostMonotone(p: Price, input: nat, output: nat, cfg: Estimation)
    requires 0.0 <= p.input && 0.0 <= p.output
    requires input <= cfg.inputTokens && output <= cfg.outputTokens
    ensures 0.0 <= CostAt(p, input, output) <= CostAt(p, cfg.inputTokens, cfg.outputTokens)
  {
    TokensMonotone(p.input, input, cfg.inputTokens);
    TokensMonotone(p.output, output, cfg.outputTokens);
  }

  lemma PaddingCovers(cost: real, multiplier: real)
    requires 0.0 <= cost && 1.0 <= multiplier
    ensures cost <= Padded(cost, multiplier)
  {
    var extra := multiplier - 1.0;
    assert cost * multiplier == cost + cost * extra;
  }

  datatype Tokens = Tokens(input: nat, output: nat)

  /** Reservations are priced by EstimateCost, settlements by CalculateCost. */
  ghost predicate PricedBy(es: seq<Event>, prices: map<RequestId, Lookup>, used: map<RequestId, Tokens>,
                           cfg: Estimation) {
    forall i :: 0 <= i < |es| ==>
      match es[i]
      case DoReserve(_, estimate, r, _) => r in prices && estimate == EstimateCost(prices[r], cfg)
      case DoSettle(r, cost, _) =>
        r in prices && r in used && Some(cost) == CalculateCost(prices[r], used[r].input, used[r].output)
      case _ => true
  }

  /** Every request keeps its price and stays within the configured token guess. */
  ghost predicate WellBehaved(prices: map<RequestId, Lookup>, used: map<RequestId, Tokens>, cfg: Estimation) {
    && 1.0 <= cfg.multiplier
    && (forall r :: r in prices ==> NonNegative(prices[r]))
    && (forall r :: r in used ==> used[r].input <= cfg.inputTokens && used[r].output <= cfg.outputTokens)
  }

  ghost predicate HoldsPriced(holds: seq<Hold>, prices: map<RequestId, Lookup>, cfg: Estimation) {
    forall h :: h in holds ==> h.request in prices && h.estimate == EstimateCost(prices[h.request], cfg)
  }

  lemma {:induction false} PricedRunStaysWithin(db: Db, es: seq<Event>, prices: map<RequestId, Lookup>,
                                                used: map<RequestId, Tokens>, cfg: Estimation)
    requires Valid(db) && HoldsPriced(db.holds, prices, cfg)
    requires PricedBy(es, prices, used, cfg) && WellBehaved(prices, used, cfg) && Atomic(es)
    ensures WithinEstimates(db, es)
    ensures HoldsPriced(Run(db, es).holds, prices, cfg)
  {
    if es != [] {
      var init, e := es[..|es| - 1], es[|es| - 1];
      PricedRunStaysWithin(db, init, prices, used, cfg);
      RunKeepsValid(db, init);
      StepHolds(Run(db, init), e);
      if e.DoSettle? {
        EstimateCoversActual(prices[e.request], cfg, used[e.request].input, used[e.request].output);
      }
    }
  }

  /**
    Pricing implies safety: with stable prices, tokens within the configured guess and a
    multiplier of at least one, a budget that cannot fall back is used past its amount by
    at most what was reserved on it when its period began, in any run with any resets; and
    never, if no reset meets a live reservation.
   */
  lemma PricedRunNeverOverspends(db: Db, es: seq<Event>, b: Id, prices: map<RequestId, Lookup>,
                                 used: map<RequestId, Tokens>, cfg: Estimation)
    requires SafeStart(db, b) && Uniform(db.holds) && (forall r :: Covered(db, r)) && HoldsPriced(db.holds, prices, cfg)
    requires Atomic(es) && FreshRun(db, es) && ClosedRun(db, es)
    requires PricedBy(es, prices, used, cfg) && WellBehaved(prices, used, cfg)
    ensures b in Run(db, es).rows
    ensures Run(db, es).rows[b].usage <= db.rows[b].config.amount + Uncovered(db, es, b)
    ensures 0.0 <= Gap(db, b) && QuietResets(db, es, b) ==> Run(db, es).rows[b].usage <= db.rows[b].config.amount
  {
    PricedRunStaysWithin(db, es, prices, used, cfg);
    ClosedRunsReserveCharges(db, es, b);
    NoOverspend(db, es, b);
  }
}
