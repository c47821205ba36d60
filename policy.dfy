/** The rebalance policy: the hour-of-day cadence, the five trigger conditions and
    the trade each policy makes when it fires, as one tagged dispatch. */
module Rebalance {
  import opened Inputs

  /** The time override `(hour - start_hour) % rebalance_hours == 0`, which only exists
      when a cadence is configured. A zero cadence never fires: the integer modulo by
      zero of the hour index yields NaN, and NaN equals nothing. */
  predicate TimeTrigger(p: Params, hour: int): (fires: bool)
    // without a configured cadence only the deviation tests can fire
    ensures p.rebalanceHours.None? ==> !fires
    ensures fires ==> p.rebalanceHours.Some? && p.rebalanceHours.value != 0
  {
    match p.rebalanceHours
    case None => false
    case Some(n) => n != 0 && (hour - p.startHour) % n == 0
  }

  /** Every hour on the grid `start_hour + k * n` fires. */
  lemma {:induction false} TimeTriggerOnGrid(p: Params, k: int)
    requires p.rebalanceHours.Some? && p.rebalanceHours.value != 0
    ensures TimeTrigger(p, p.startHour + k * p.rebalanceHours.value)
  {
    var n := p.rebalanceHours.value;
    MultipleModZero(k, n);
    assert p.startHour + k * n - p.startHour == k * n;
  }

  /** Only hours on that grid fire. */
  lemma TimeTriggerOnlyOnGrid(p: Params, hour: int)
    requires TimeTrigger(p, hour)
    ensures p.rebalanceHours.Some? && p.rebalanceHours.value != 0
    ensures hour == p.startHour + ((hour - p.startHour) / p.rebalanceHours.value) * p.rebalanceHours.value
  {
  }

  /** The mask is periodic in the hour value with period `rebalance_hours`. Since the
      hour is the hour of the day, this is a wall-clock period only when the cadence
      divides 24 (`TimeTriggerDaily`). */
  lemma {:induction false} TimeTriggerPeriodic(p: Params, hour: int)
    requires p.rebalanceHours.Some?
    ensures TimeTrigger(p, hour + p.rebalanceHours.value) == TimeTrigger(p, hour)
  {
    var n := p.rebalanceHours.value;
    if n != 0 {
      var a := hour - p.startHour;
      if a % n == 0 {
        MultipleModZero(a / n + 1, n);
        assert a + n == (a / n + 1) * n;
      } else {
        ModShift(a, n);
      }
      assert hour + n - p.startHour == a + n;
    }
  }

  /** A bar's hour is its hour of the day, so the hour `n` hours after `hour` is
      `(hour + n) % 24`. When the cadence divides 24, the mask fires every `n` hours of
      wall-clock time, across midnight as well. */
  lemma TimeTriggerDaily(p: Params, hour: int)
    requires p.rebalanceHours.Some? && p.rebalanceHours.value > 0 && 24 % p.rebalanceHours.value == 0
    requires 0 <= hour < 24
    ensures TimeTrigger(p, (hour + p.rebalanceHours.value) % 24) == TimeTrigger(p, hour)
  {
    var n := p.rebalanceHours.value;
    var a := hour - p.startHour;
    if hour + n < 24 {
      ModShift(a, n);
      assert (hour + n) % 24 - p.startHour == a + n;
    } else {
      assert (hour + n) % 24 == hour + n - 24;
      ModAddMultiple(a, 1 - 24 / n, n);
      assert a + (1 - 24 / n) * n == (hour + n) % 24 - p.startHour;
    }
  }

  /** A cadence that does not divide 24 starts over at midnight: with `rebalance_hours = 5`
      from hour 0, hour 20 fires and hour 0, four hours later, fires again, while none of
      the hours in between does. */
  lemma CadenceResetsAtMidnight(p: Params)
    requires p.rebalanceHours == Some(5) && p.startHour == 0
    ensures TimeTrigger(p, 20) && TimeTrigger(p, 0)
    ensures !TimeTrigger(p, 21) && !TimeTrigger(p, 22) && !TimeTrigger(p, 23)
    ensures !TimeTrigger(p, (20 + 5) % 24)
  {
  }

  /** A cadence of a day or more fires once a day, at `start_hour`: the hour-of-day
      value never reaches a second grid point. */
  lemma LongCadenceOncePerDay(p: Params, hour: int)
    requires p.rebalanceHours.Some? && p.rebalanceHours.value >= 24
    requires 0 <= p.startHour < 24 && 0 <= hour < 24
    ensures TimeTrigger(p, hour) <==> hour == p.startHour
  {
    var n := p.rebalanceHours.value;
    var a := hour - p.startHour;
    if a > 0 {
      assert a % n == a by { ModSmall(a, n); }
    } else if a < 0 {
      assert (a + n) % n == a + n by { ModSmall(a + n, n); }
      ModShift(a, n);
    }
  }

  lemma {:induction false} ModSmall(a: int, n: int)
    requires 0 <= a < n
    ensures a % n == a
  {
    var q, r := a / n, a % n;
    assert a == n * q + r && 0 <= r < n;
    if q > 0 {
      MulAtLeast(n, q);
    } else if q < 0 {
      MulAtLeast(n, -q);
    }
  }

  lemma {:induction false} ModAddMultiple(a: int, k: int, n: int)
    requires n != 0
    ensures (a + k * n) % n == a % n
    decreases if k < 0 then -k else k
  {
    if k > 0 {
      ModAddMultiple(a, k - 1, n);
      assert a + k * n == (a + (k - 1) * n) + n;
      ModShift(a + (k - 1) * n, n);
    } else if k < 0 {
      ModAddMultiple(a, k + 1, n);
      assert a + (k + 1) * n == (a + k * n) + n;
      ModShift(a + k * n, n);
    }
  }

  lemma {:induction false} MultipleModZero(k: int, n: int)
    requires n != 0
    ensures (k * n) % n == 0
  {
    var a := k * n;
    var q, r := a / n, a % n;
    assert a == n * q + r && 0 <= r < Abs0(n);
    assert n * (k - q) == r;
    if k - q > 0 {
      MulAtLeast(n, k - q);
    } else if k - q < 0 {
      MulAtLeast(n, q - k);
    }
  }

  lemma {:induction false} ModShift(a: int, n: int)
    requires n != 0
    ensures (a + n) % n == a % n
  {
    var q, r := a / n, a % n;
    assert a + n == n * (q + 1) + r && 0 <= r < Abs0(n);
    var q', r' := (a + n) / n, (a + n) % n;
    assert a + n == n * q' + r' && 0 <= r' < Abs0(n);
    assert n * (q + 1 - q') == r' - r;
    if q + 1 - q' > 0 {
      MulAtLeast(n, q + 1 - q');
    } else if q + 1 - q' < 0 {
      MulAtLeast(n, q' - q - 1);
    }
  }

  function Abs0(n: int): int { if n < 0 then -n else n }

  lemma {:induction false} MulAtLeast(n: int, m: int)
    requires n != 0 && m >= 1
    ensures Abs0(n * m) >= Abs0(n)
  {
    if n > 0 {
      assert n * m == n + n * (m - 1);
      assert n * (m - 1) >= 0;
    } else {
      assert n * m == n + n * (m - 1);
      assert n * (m - 1) <= 0;
    }
  }

  /** `should_rebalance` of each branch: `capDev` is `capital_dev`, `posDev` is
      `position_dev`, `cum` is `cum_pnl` after this step's free P&L was added and
      `byTime` is the time override. */
  predicate ShouldRebalance(pol: Policy, p: Params, capDev: real, posDev: real, cum: real, byTime: bool): (fire: bool)
    // the cadence always fires a two-sided or the default policy, a buy-only one only on a positive buffer
    ensures byTime && (!pol.BuyOnly() || cum > 0.0) ==> fire
    ensures pol.BuyOnly() && fire ==> cum > 0.0
    // the default policy fires exactly on its cadence
    ensures pol.TimeOnly? ==> (fire <==> byTime)
    // off the cadence, drifts inside the band never fire
    ensures !byTime && Abs(capDev) < p.deviation && Abs(posDev) < p.deviation ==> !fire
  {
    match pol
    case CapDev => Abs(capDev) >= p.deviation || byTime
    case CapDevOnlyBuy => (capDev >= p.deviation || byTime) && cum > 0.0
    case PosDev => Abs(posDev) >= p.deviation || byTime
    case PosDevOnlyBuy => (posDev >= p.deviation || byTime) && cum > 0.0
    case TimeOnly => byTime
  }

  /** The drift tests of `ShouldRebalance`: the two-sided policies fire on a drift
      of either sign at or past the band; the buy-only ones fire on a drift at or
      above it, given a positive buffer, and never on a drift below it unless the
      cadence fires. */
  lemma DriftTriggers(pol: Policy, p: Params, capDev: real, posDev: real, cum: real, byTime: bool)
    ensures pol.CapDev? && Abs(capDev) >= p.deviation ==> ShouldRebalance(pol, p, capDev, posDev, cum, byTime)
    ensures pol.PosDev? && Abs(posDev) >= p.deviation ==> ShouldRebalance(pol, p, capDev, posDev, cum, byTime)
    ensures pol.CapDevOnlyBuy? && capDev >= p.deviation && cum > 0.0 ==> ShouldRebalance(pol, p, capDev, posDev, cum, byTime)
    ensures pol.PosDevOnlyBuy? && posDev >= p.deviation && cum > 0.0 ==> ShouldRebalance(pol, p, capDev, posDev, cum, byTime)
    // one-sided: a drift below the band, however large in magnitude, does not fire
    ensures pol.CapDevOnlyBuy? && !byTime && capDev < p.deviation ==> !ShouldRebalance(pol, p, capDev, posDev, cum, byTime)
    ensures pol.PosDevOnlyBuy? && !byTime && posDev < p.deviation ==> !ShouldRebalance(pol, p, capDev, posDev, cum, byTime)
    // the capital-deviation policies do not read `position_dev`, and the position ones not `capital_dev`
    ensures pol.CapDev? || pol.CapDevOnlyBuy? ==>
      forall q :: ShouldRebalance(pol, p, capDev, q, cum, byTime) == ShouldRebalance(pol, p, capDev, posDev, cum, byTime)
    ensures pol.PosDev? || pol.PosDevOnlyBuy? ==>
      forall c :: ShouldRebalance(pol, p, c, posDev, cum, byTime) == ShouldRebalance(pol, p, capDev, posDev, cum, byTime)
  {
  }

  /** The outcome of one rebalance decision: the LST units to buy (`diff_lst`) and
      the buffer `cum_pnl` left afterwards. */
  datatype Decision = Decision(diffLst: real, cumPnl: real)

  /** The trade a policy makes at bar `b`. `preFeePnl` is this step's total P&L
      before fees, which only the default policy sizes from. */
  function Decide(pol: Policy, p: Params, b: Bar, capDev: real, posDev: real, cum: real, preFeePnl: real, byTime: bool): (d: Decision)
    requires b.lst > 0.0
    // no trigger, no trade, buffer untouched
    ensures !ShouldRebalance(pol, p, capDev, posDev, cum, byTime) ==> d == Decision(0.0, cum)
    // a non-positive buffer is never traded: it carries forward
    ensures pol.BufferDriven() && cum <= 0.0 ==> d == Decision(0.0, cum)
    // buffer policies never sell
    ensures pol.BufferDriven() ==> d.diffLst >= 0.0
    ensures pol.BufferDriven() ==> d.cumPnl == 0.0 || d.cumPnl == cum
    // the default policy converts the whole pre-fee step P&L and never touches the buffer
    ensures pol.TimeOnly? ==> d.cumPnl == cum
  {
    if !ShouldRebalance(pol, p, capDev, posDev, cum, byTime) then Decision(0.0, cum)
    else match pol
      case TimeOnly => Decision(Units(p, preFeePnl, b), cum)
      // the buy-only clamp `if diff_lst < 0: diff_lst = 0`
      case CapDevOnlyBuy => Decision(Max0(Units(p, cum, b)), 0.0)
      case PosDevOnlyBuy => Decision(Max0(Units(p, cum, b)), 0.0)
      case CapDev => Consume(p, b, cum)
      case PosDev => Consume(p, b, cum)
  }

  /** What a trade is worth: a buffer policy that fires on a positive buffer buys exactly
      the buffer's worth and empties it; the default policy buys the pre-fee step P&L's worth. */
  lemma DecideConverts(pol: Policy, p: Params, b: Bar, capDev: real, posDev: real, cum: real, preFeePnl: real, byTime: bool)
    requires b.lst > 0.0
    ensures pol.BufferDriven() && ShouldRebalance(pol, p, capDev, posDev, cum, byTime) && cum > 0.0 ==>
              Decide(pol, p, b, capDev, posDev, cum, preFeePnl, byTime).cumPnl == 0.0
              && Cash(Decide(pol, p, b, capDev, posDev, cum, preFeePnl, byTime).diffLst, LstPrice(p, b)) == cum
    ensures pol.TimeOnly? && byTime ==>
              Cash(Decide(pol, p, b, capDev, posDev, cum, preFeePnl, byTime).diffLst, LstPrice(p, b)) == preFeePnl
  {
  }

  /** A two-sided buffer policy that fired: convert a positive buffer, otherwise keep it. */
  function Consume(p: Params, b: Bar, cum: real): (d: Decision)
    requires b.lst > 0.0
    ensures cum > 0.0 ==> d.cumPnl == 0.0 && Cash(d.diffLst, LstPrice(p, b)) == cum
    ensures cum <= 0.0 ==> d == Decision(0.0, cum)
  {
    if cum > 0.0 then Decision(Units(p, cum, b), 0.0) else Decision(0.0, cum)
  }

  /** With a positive starting capital, `cap_dev` and `cap_dev_only_buy` make the same
      decision: a positive buffer gives a positive `capital_dev`, so the one-sided test
      equals the two-sided one wherever the buffer can be traded. */
  lemma CapDevVariantsAgree(p: Params, b: Bar, posDev: real, cum: real, preFeePnl: real, byTime: bool)
    requires b.lst > 0.0 && p.initCapital > 0.0
    ensures Decide(CapDev, p, b, cum / p.initCapital, posDev, cum, preFeePnl, byTime)
         == Decide(CapDevOnlyBuy, p, b, cum / p.initCapital, posDev, cum, preFeePnl, byTime)
  {
    if cum > 0.0 {
      assert cum / p.initCapital > 0.0;
    }
  }
}
