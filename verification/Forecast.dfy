/**
  The two forecasts: the alert service's (computeAlertForecast) and the API's
  (computeForecast). Instants are in hours for the first part and in seconds for the
  time series.
 */
module Forecast {
  import opened Model

  const ON_TRACK := -1.0

  datatype Projection = Projection(spend: real, days: real)

  function BurnRate(periodUsage: real, elapsedHours: real): real
    requires elapsedHours > 0.0
  {
    periodUsage / elapsedHours * 24.0
  }

  function RemainingDays(end: real, now: real): real {
    Max0((end - now) / 24.0)
  }

  /** computeAlertForecast. */
  function AlertForecast(usage: real, amount: real, start: real, end: real, periodUsage: real, now: real): Projection {
    var elapsed := now - start;
    if elapsed <= 0.0 || periodUsage <= 0.0 then Projection(usage, ON_TRACK)
    else
      var rate := BurnRate(periodUsage, elapsed);
      assert rate > 0.0 by { RatePositive(periodUsage, elapsed); }
      var spend := usage + rate * RemainingDays(end, now);
      if spend <= amount then Projection(spend, ON_TRACK)
      else if amount - usage <= 0.0 then Projection(spend, 0.0)
      else Projection(spend, (amount - usage) / rate)
  }

  /** The headline figures of computeForecast, before rounding. */
  function ApiForecast(usage: real, amount: real, end: real, rate: real, now: real): Projection {
    var left := RemainingDays(end, now);
    var spend := if rate > 0.0 then usage + rate * left else usage;
    var remaining := amount - usage;
    Projection(spend,
               if rate > 0.0 && remaining > 0.0 && remaining / rate <= left then remaining / rate else ON_TRACK)
  }

  lemma RatePositive(periodUsage: real, elapsed: real)
    requires periodUsage > 0.0 && elapsed > 0.0
    ensures BurnRate(periodUsage, elapsed) > 0.0
  {
    DivisionSign(periodUsage, elapsed);
  }

  lemma DivisionSign(x: real, y: real)
    requires x > 0.0 && y > 0.0
    ensures x / y > 0.0
  {
    var q := x / y;
    assert q * y == x;
  }

  /** x / rate against t, cleared of the division. */
  lemma DivisionBound(x: real, rate: real, t: real)
    requires rate > 0.0
    ensures x / rate <= t <==> x <= rate * t
    ensures x / rate < t <==> x < rate * t
  {
    var q := x / rate;
    assert x == rate * q;
    ScaleOrder(rate, q, t);
  }

  lemma ScaleOrder(k: real, x: real, y: real)
    requires k > 0.0
    ensures x <= y <==> k * x <= k * y
    ensures x < y <==> k * x < k * y
  {
    if x < y {
      assert k * (y - x) > 0.0;
    }
    if y < x {
      assert k * (x - y) > 0.0;
    }
  }

  /**
    The alert forecast goes on at the observed pace: the rest of the period is projected to
    cost in proportion to the period so far, and a positive answer is when that pace reaches
    the amount.
   */
  lemma GoesOnAtObservedPace(usage: real, amount: real, start: real, end: real, periodUsage: real, now: real)
    requires start < now <= end && periodUsage > 0.0
    ensures var f := AlertForecast(usage, amount, start, end, periodUsage, now);
            && (f.spend - usage) * (now - start) == periodUsage * (end - now)
            && (f.days > 0.0 ==> (amount - usage) * (now - start) == periodUsage * 24.0 * f.days)
  {
    var elapsed := now - start;
    var rate := BurnRate(periodUsage, elapsed);
    var days := RemainingDays(end, now);
    RatePositive(periodUsage, elapsed);
    assert rate * elapsed == periodUsage * 24.0 by {
      var perHour := periodUsage / elapsed;
      assert perHour * elapsed == periodUsage;
      assert rate == perHour * 24.0;
      Swap(perHour, 24.0, elapsed);
    }
    assert days * 24.0 == end - now;
    Product(rate, days, elapsed, periodUsage * 24.0);
    Regroup(periodUsage, days);
    var left := (amount - usage) / rate;
    assert left * rate == amount - usage;
    Product(rate, left, elapsed, periodUsage * 24.0);
  }

  lemma Swap(x: real, y: real, z: real)
    ensures x * y * z == x * z * y
  {
  }

  lemma Product(rate: real, days: real, elapsed: real, c: real)
    requires rate * elapsed == c
    ensures rate * days * elapsed == c * days
  {
    Swap(rate, days, elapsed);
  }

  lemma Regroup(x: real, days: real)
    ensures x * 24.0 * days == x * (days * 24.0)
  {
  }

  /** Without an elapsed period or usage in it, nothing is projected; the answer is then -1. */
  lemma NothingObserved(usage: real, amount: real, start: real, end: real, periodUsage: real, now: real)
    ensures var f := AlertForecast(usage, amount, start, end, periodUsage, now);
            && (now <= start || periodUsage <= 0.0 ==> f.spend == usage && f.days == -1.0)
            && (start < now && periodUsage > 0.0 && f.spend > amount && amount <= usage ==> f.days == 0.0)
            && (f.spend <= amount ==> f.days == -1.0)
  {
  }

  /** The API's headline: usage plus the rate for the days left, and when that reaches the amount. */
  lemma ApiHeadline(usage: real, amount: real, end: real, rate: real, now: real)
    requires now <= end
    ensures var f := ApiForecast(usage, amount, end, rate, now);
            && (rate <= 0.0 ==> f.spend == usage && f.days == -1.0)
            && (rate > 0.0 ==> (f.spend - usage) * 24.0 == rate * (end - now))
            && (rate > 0.0 && usage < amount <= f.spend ==> f.days * rate == amount - usage)
            && (usage >= amount || f.spend < amount ==> f.days == -1.0)
  {
    var days := RemainingDays(end, now);
    assert days * 24.0 == end - now;
    Regroup(rate, days);
    Swap(rate, 24.0, days);
    if rate > 0.0 {
      DivisionBound(amount - usage, rate, days);
      var left := (amount - usage) / rate;
      assert left * rate == amount - usage;
    }
  }

  /** A forecast warns exactly when the projected spend exceeds the amount. */
  lemma WarnsIffOverrun(usage: real, amount: real, start: real, end: real, periodUsage: real, now: real)
    requires start < now && periodUsage > 0.0
    ensures var f := AlertForecast(usage, amount, start, end, periodUsage, now);
            0.0 <= f.days <==> f.spend > amount
  {
    var rate := BurnRate(periodUsage, now - start);
    RatePositive(periodUsage, now - start);
    if amount - usage > 0.0 {
      DivisionSign(amount - usage, rate);
    }
  }

  /** A predicted exhaustion lies strictly before the end of the period. */
  lemma ExhaustionBeforeEnd(usage: real, amount: real, start: real, end: real, periodUsage: real, now: real)
    requires start < now && periodUsage > 0.0
    requires AlertForecast(usage, amount, start, end, periodUsage, now).days > 0.0
    ensures now + AlertForecast(usage, amount, start, end, periodUsage, now).days * 24.0 < end
  {
    var rate := BurnRate(periodUsage, now - start);
    RatePositive(periodUsage, now - start);
    var left := RemainingDays(end, now);
    DivisionBound(amount - usage, rate, left);
    assert rate * left > amount - usage > 0.0;
    ScaleOrder(rate, 0.0, left);
  }

  /**
    For one burn rate and a budget that is not yet exhausted, both forecasts give the
    same answer unless the projection meets the amount exactly.
   */
  lemma ForecastsAgreeIff(usage: real, amount: real, start: real, end: real, periodUsage: real, now: real)
    requires start < now && periodUsage > 0.0 && usage < amount
    ensures var a := AlertForecast(usage, amount, start, end, periodUsage, now);
            var f := ApiForecast(usage, amount, end, BurnRate(periodUsage, now - start), now);
            a.spend == f.spend && (a.days == f.days <==> a.spend != amount)
  {
    var rate := BurnRate(periodUsage, now - start);
    RatePositive(periodUsage, now - start);
    DivisionBound(amount - usage, rate, RemainingDays(end, now));
    DivisionSign(amount - usage, rate);
  }

  // ----- The time series ---------------------------------------------------

  datatype Point = Point(at: nat, actual: Option<real>, projected: Option<real>)

  const HOUR := 3600
  const DAY := 86400

  /** timeSeriesStep: minutes, hours, or 0 for calendar days. */
  function StepOf(period: nat): nat {
    if period < HOUR then 60 else if period < DAY then HOUR else 0
  }

  /** The distance between two points. */
  function Stride(step: nat): (stride: nat)
    ensures 0 < stride
  {
    if step == 0 then DAY else step
  }

  /** Where the series begins: fixed steps are aligned, days are not. */
  function Start(historyStart: nat, step: nat): nat {
    if step == 0 then historyStart else historyStart - historyStart % step
  }

  /** The bucket of usage shown at a point: its day, or the very instant. */
  function DateKey(at: nat, step: nat): nat {
    if step == 0 then at / DAY else at
  }

  function PointAt(at: nat, now: nat, step: nat, actual: map<nat, real>, perStep: real): Point {
    if at <= now then Point(at, if DateKey(at, step) in actual then Some(actual[DateKey(at, step)]) else None, None)
    else Point(at, None, Some(perStep))
  }

  function Series(cursor: nat, end: nat, now: nat, step: nat, actual: map<nat, real>, perStep: real): seq<Point>
    decreases end - cursor
  {
    if end <= cursor then []
    else [PointAt(cursor, now, step, actual, perStep)] + Series(cursor + Stride(step), end, now, step, actual, perStep)
  }

  /** The projected spend of one step. */
  function PerStep(perDay: real, step: nat): real {
    perDay * (if step > 0 then step as real / 3600.0 / 24.0 else 1.0)
  }

  /** The cursor loop of computeForecast. */
  method TimeSeries(historyStart: nat, end: nat, now: nat, step: nat, actual: map<nat, real>, perDay: real)
    returns (points: seq<Point>)
    ensures points == Series(Start(historyStart, step), end, now, step, actual, PerStep(perDay, step))
  {
    var cursor := historyStart;
    if step > 0 {
      cursor := historyStart - historyStart % step;
    }
    var perStep := PerStep(perDay, step);
    points := SeriesFrom(cursor, end, now, step, actual, perStep);
  }

  method SeriesFrom(start: nat, end: nat, now: nat, step: nat, actual: map<nat, real>, perStep: real)
    returns (points: seq<Point>)
    ensures points == Series(start, end, now, step, actual, perStep)
  {
    var cursor := start;
    points := [];
    while cursor < end
      invariant points + Series(cursor, end, now, step, actual, perStep) ==
                  Series(start, end, now, step, actual, perStep)
      decreases end - cursor
    {
      points := points + [PointAt(cursor, now, step, actual, perStep)];
      if step > 0 {
        cursor := cursor + step;
      } else {
        cursor := cursor + DAY;
      }
    }
  }

  /** Points are one stride apart, end before the period does, and leave no gap at its end. */
  lemma {:induction false} SeriesCoversPeriod(cursor: nat, end: nat, now: nat, step: nat, actual: map<nat, real>,
                                              perStep: real)
    ensures var s := Series(cursor, end, now, step, actual, perStep);
            && (forall i :: 0 <= i < |s| ==> s[i].at == cursor + i * Stride(step) && s[i].at < end)
            && end <= cursor + |s| * Stride(step)
    decreases end - cursor
  {
    if cursor < end {
      var stride := Stride(step);
      SeriesCoversPeriod(cursor + stride, end, now, step, actual, perStep);
      var s, tail := Series(cursor, end, now, step, actual, perStep),
        Series(cursor + stride, end, now, step, actual, perStep);
      assert s == [s[0]] + tail;
      assert |s| * stride == stride + |tail| * stride;
      forall i | 0 < i < |s|
        ensures s[i].at == cursor + i * stride
      {
        assert s[i] == tail[i - 1];
        assert (i - 1) * stride + stride == i * stride;
      }
    }
  }

  /**
    One period makes a point for each minute, hour or day that begins in it: at most 60 by
    the minute and at most 24 by the hour.
   */
  lemma PointsPerPeriod(cursor: nat, period: nat, now: nat, actual: map<nat, real>, perStep: real)
    requires 0 < period
    ensures var n := |Series(cursor, cursor + period, now, StepOf(period), actual, perStep)|;
            && (period < 3600 ==> (n - 1) * 60 < period <= n * 60 && n <= 60)
            && (3600 <= period < 86400 ==> (n - 1) * 3600 < period <= n * 3600 && n <= 24)
            && (86400 <= period ==> (n - 1) * 86400 < period <= n * 86400)
            && 1 <= n
  {
    var s := Series(cursor, cursor + period, now, StepOf(period), actual, perStep);
    SeriesCoversPeriod(cursor, cursor + period, now, StepOf(period), actual, perStep);
    assert s[|s| - 1].at == cursor + (|s| - 1) * Stride(StepOf(period));
  }

  /** No projected value up to now, only projected values after it. */
  lemma {:induction false} SeriesSplitsAtNow(cursor: nat, end: nat, now: nat, step: nat, actual: map<nat, real>,
                                             perStep: real)
    ensures forall p :: p in Series(cursor, end, now, step, actual, perStep) ==>
              if p.at <= now
              then p.projected.None? && var key := if step == 0 then p.at / 86400 else p.at;
                   p.actual == if key in actual then Some(actual[key]) else None
              else p.projected == Some(perStep) && p.actual.None?
    decreases end - cursor
  {
    if cursor < end {
      SeriesSplitsAtNow(cursor + Stride(step), end, now, step, actual, perStep);
    }
  }

  function ProjectedTotal(points: seq<Point>): real {
    if points == [] then 0.0
    else (if points[0].projected.Some? then points[0].projected.value else 0.0) + ProjectedTotal(points[1..])
  }

  /** Dollars spent in `seconds` at a given rate. */
  function Spend(perSecond: real, seconds: int): real {
    perSecond * seconds as real
  }

  lemma SpendAdds(perSecond: real, x: int, y: int)
    requires 0.0 <= perSecond
    ensures Spend(perSecond, x + y) == Spend(perSecond, x) + Spend(perSecond, y)
    ensures 0 <= x ==> 0.0 <= Spend(perSecond, x)
    ensures x <= 0 ==> Spend(perSecond, x) <= 0.0
  {
    assert (x + y) as real == x as real + y as real;
  }

  lemma {:induction false} FutureTotal(cursor: nat, end: nat, now: nat, step: nat, actual: map<nat, real>,
                                       perSecond: real, perStep: real)
    requires 0.0 <= perSecond && now < cursor && perStep == Spend(perSecond, Stride(step))
    ensures var total := ProjectedTotal(Series(cursor, end, now, step, actual, perStep));
            && 0.0 <= total
            && Spend(perSecond, end - cursor) <= total
            && (cursor <= end ==> total <= Spend(perSecond, end - cursor) + perStep)
            && (end <= cursor ==> total == 0.0)
    decreases end - cursor
  {
    SpendAdds(perSecond, end - cursor, 0);
    SpendAdds(perSecond, Stride(step), 0);
    if cursor < end {
      var next := cursor + Stride(step);
      FutureTotal(next, end, now, step, actual, perSecond, perStep);
      assert Series(cursor, end, now, step, actual, perStep)[1..] == Series(next, end, now, step, actual, perStep);
      SpendAdds(perSecond, end - next, Stride(step));
      assert end - next + Stride(step) == end - cursor;
    }
  }

  lemma {:induction false} SeriesTotal(cursor: nat, end: nat, now: nat, step: nat, actual: map<nat, real>,
                                       perSecond: real, perStep: real)
    requires 0.0 <= perSecond && cursor <= now < end && perStep == Spend(perSecond, Stride(step))
    ensures var total, headline := ProjectedTotal(Series(cursor, end, now, step, actual, perStep)),
              Spend(perSecond, end - now);
            headline - perStep <= total <= headline + perStep
    decreases end - cursor
  {
    var next := cursor + Stride(step);
    assert Series(cursor, end, now, step, actual, perStep)[1..] == Series(next, end, now, step, actual, perStep);
    if next <= now {
      SeriesTotal(next, end, now, step, actual, perSecond, perStep);
    } else {
      FutureTotal(next, end, now, step, actual, perSecond, perStep);
      SpendAdds(perSecond, end - next, next - now);
      assert end - next + (next - now) == end - now;
      SpendAdds(perSecond, next - now, now - cursor);
      assert next - now + (now - cursor) == Stride(step);
      SpendAdds(perSecond, now - cursor, 0);
      SpendAdds(perSecond, next - now, 0);
      SpendAdds(perSecond, end - now, 0);
    }
  }

  /**
    The projected part of the series adds up to the headline projection (burn rate times
    the rest of the period) to within one step's spend.
   */
  lemma SeriesMatchesHeadline(historyStart: nat, end: nat, now: nat, step: nat, actual: map<nat, real>, perDay: real)
    requires 0.0 <= perDay && historyStart <= now < end
    ensures var perStep := PerStep(perDay, step);
            var total := ProjectedTotal(Series(Start(historyStart, step), end, now, step, actual, perStep));
            var headline := perDay * ((end - now) as real / 86400.0);
            headline - perStep <= total <= headline + perStep
  {
    StartNotLater(historyStart, step);
    InSeconds(perDay, step, end - now);
    SeriesTotal(Start(historyStart, step), end, now, step, actual, perDay / 86400.0, PerStep(perDay, step));
  }

  lemma InSeconds(perDay: real, step: nat, seconds: int)
    ensures PerStep(perDay, step) == Spend(perDay / 86400.0, Stride(step))
    ensures perDay * (seconds as real / 86400.0) == Spend(perDay / 86400.0, seconds)
    ensures 0.0 <= perDay ==> 0.0 <= perDay / 86400.0
  {
  }

  lemma StartNotLater(historyStart: nat, step: nat)
    ensures Start(historyStart, step) <= historyStart < Start(historyStart, step) + Stride(step)
  {
  }

  /** Fixed steps begin on a multiple of the step; days begin where the history does. */
  lemma StartAligned(historyStart: nat, step: nat)
    ensures if step == 0 then Start(historyStart, step) == historyStart
            else Start(historyStart, step) == historyStart / step * step
  {
  }
}
