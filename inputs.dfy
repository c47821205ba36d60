/** Inputs of one backtest run: the aligned market bars, the run parameters and
    the small conversions between units of the looped LST, cash and hedge units. */
module Inputs {

  datatype Option<T> = None | Some(value: T)

  /** One aligned input bar: LST price, hedge price, hedge simple return,
      the selected funding observation, the cross-token price and the bar's hour of
      the day, 0 to 23 in the program. */
  datatype Bar = Bar(lst: real, hedge: real, hedgeRet: real, funding: real, cross: real, hour: int)

  /** The rebalance policy tag. Every tag other than the four named ones selects
      the default branch, which only the time cadence can trigger. */
  datatype Policy = CapDev | CapDevOnlyBuy | PosDev | PosDevOnlyBuy | TimeOnly {
    /** The four policies that size trades from the accumulated P&L buffer. */
    predicate BufferDriven() { !TimeOnly? }
    predicate BuyOnly() { CapDevOnlyBuy? || PosDevOnlyBuy? }
  }

  /** The numeric parameters of a run; the policy tag is passed beside them. */
  datatype Params = Params(
    deviation: real,
    initCapital: real,
    futFees: real,
    spotFees: real,
    lstCollateral: real,
    rebalanceHours: Option<int>,  // None: only the deviation tests can fire
    startHour: int,
    crossEx: real)                // 0 disables the cross-token scaling

  /** The parameters with the program's defaults for the optional ones: full collateral,
      no cadence (starting at hour 0) and no cross-token scaling. The whole capital is
      then deployed and every LST unit is priced at the LST price. */
  function DefaultParams(deviation: real, initCapital: real, futFees: real, spotFees: real): (q: Params)
    ensures q.deviation == deviation && q.initCapital == initCapital
    ensures q.futFees == futFees && q.spotFees == spotFees
    ensures q.rebalanceHours.None?
    ensures Deployed(q) == 1.0
    ensures forall b :: Scale(q, b) == 1.0
  {
    Params(deviation, initCapital, futFees, spotFees, 1.0, None, 0, 0.0)
  }

  /** The fixed target weights of the hedge and the looped leg. */
  const HedgeW: real := 0.2
  const LstW: real := 1.0 - HedgeW

  /** All bars carry positive LST and hedge prices: every price is a divisor somewhere. */
  predicate PricesPositive(bars: seq<Bar>) {
    forall i :: 0 <= i < |bars| ==> bars[i].lst > 0.0 && bars[i].hedge > 0.0
  }

  /** `np.maximum(1, x)` */
  function Max1(x: real): (m: real)
    ensures m >= 1.0 && m >= x
    ensures m == 1.0 || m == x
  {
    if x > 1.0 then x else 1.0
  }

  /** Python's `max(0, x)` */
  function Max0(x: real): (m: real)
    ensures m >= 0.0 && m >= x
    ensures m == 0.0 || m == x
  {
    if x > 0.0 then x else 0.0
  }

  function Abs(x: real): (a: real)
    ensures a >= 0.0
    ensures a == x || a == -x
    ensures a == 0.0 <==> x == 0.0
  {
    if x < 0.0 then -x else x
  }

  /** The cross-token factor applied to an LST price: `max(1, cross_ex * cross)`.
      With `cross_ex == 0` (the default) it is 1, so LST cash is unit count times price. */
  function Scale(p: Params, b: Bar): (s: real)
    ensures s >= 1.0
    ensures p.crossEx == 0.0 ==> s == 1.0
  {
    Max1(p.crossEx * b.cross)
  }

  /** Fraction of capital deployed into the looped leg, `lst_w + (1 - lst_w) * lst_collateral`. */
  function Deployed(p: Params): (d: real)
    ensures d == 0.8 + 0.2 * p.lstCollateral
    ensures p.lstCollateral == 1.0 ==> d == 1.0
  {
    LstW + (1.0 - LstW) * p.lstCollateral
  }

  /** The cash price of one LST unit at bar `b`: `lst * max(1, cross_ex * cross)`. */
  function LstPrice(p: Params, b: Bar): (x: real)
    ensures b.lst > 0.0 ==> x >= b.lst
  {
    b.lst * Scale(p, b)
  }

  /** The LST price used for the closing valuation: this bar's LST price with the
      cross factor of the first bar, `lst * max(1, cross_ex * cross[0])`. */
  function EndPrice(p: Params, b0: Bar, b: Bar): (x: real)
    ensures b.lst > 0.0 ==> x >= b.lst
    ensures p.crossEx == 0.0 ==> x == LstPrice(p, b)
  {
    b.lst * Scale(p, b0)
  }

  /** The cash value of `units` at `price`. */
  function Cash(units: real, price: real): (c: real)
    ensures units == 0.0 || price == 0.0 ==> c == 0.0
  {
    units * price
  }

  /** The `{lst}_ex` column: hedge units needed per LST unit so that both legs
      have equal notional at this bar's prices. */
  function Ex(p: Params, b: Bar): (e: real)
    requires b.lst > 0.0 && b.hedge > 0.0
    ensures e > 0.0
    ensures Cash(e, b.hedge) == LstPrice(p, b)
  {
    b.lst * Scale(p, b) / b.hedge
  }

  /** The hedge re-derived from the looped leg: `count_loop * {lst}_ex`. Both legs
      then carry the same notional. */
  function HedgeUnits(p: Params, lstUnits: real, b: Bar): (h: real)
    requires b.lst > 0.0 && b.hedge > 0.0
    ensures Cash(h, b.hedge) == Cash(lstUnits, LstPrice(p, b))
    ensures lstUnits == 0.0 ==> h == 0.0
  {
    var e := Ex(p, b);
    assert (lstUnits * e) * b.hedge == lstUnits * (e * b.hedge);
    lstUnits * e
  }

  /** Converts an amount of cash into LST units at this bar's price and cross factor. */
  function Units(p: Params, cash: real, b: Bar): (u: real)
    requires b.lst > 0.0
    ensures Cash(u, LstPrice(p, b)) == cash
    ensures cash > 0.0 ==> u > 0.0
    ensures cash < 0.0 ==> u < 0.0
    ensures cash == 0.0 ==> u == 0.0
  {
    cash / Scale(p, b) / b.lst
  }
}
