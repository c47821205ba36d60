/** The strategy engine: the row-0 initialiser, the per-step recurrence and the
    backtest run that fills the output table row by row. */
module Engine {
  import opened Inputs
  import opened Rebalance

  /** Why a run stops without a table. */
  datatype Fault =
    | NoValidRow            // the input table is empty: there is no row 0
    | ZeroCapital(row: nat) // capital of that row is a divisor (leverage, returns)
    | ZeroHedgeCash(row: nat) // hedge cash of that row divides lst cash (position_dev)

  datatype Result<T> = Ok(value: T) | Err(fault: Fault)

  /** One output row of the backtest table. */
  datatype Row = Row(
    lstEx: real,
    capital: real,
    countLoop: real,
    countHedge: real,
    fundRet: real,
    lstPnl: real,
    fundPnl: real,
    hedgePnl: real,
    freePnl: real,
    totalPnl: real,
    lstCash: real,
    hedgeCash: real,
    cumPnl: real,
    capitalDev: real,
    positionDev: real,
    diffLst: real,
    diffHedge: real,
    lstFees: real,
    hedgeFees: real,
    totalFees: real,
    lstCashEnd: real,
    hedgeCashEnd: real,
    leverage: real,
    strategyRet: real,
    strategyCumret: real)

  /** What the initialiser guarantees of row 0. */
  predicate InitFacts(p: Params, b0: Bar, r: Row)
    requires b0.lst > 0.0 && b0.hedge > 0.0
  {
    p.initCapital != 0.0
    && r.lstEx == Ex(p, b0)
    // capital starts at the initial capital: opening fees are not deducted
    && r.capital == p.initCapital && r.totalPnl == 0.0
    // the deployed fraction of capital sits in each leg, so the legs start at parity
    && r.lstCash == Cash(r.countLoop, LstPrice(p, b0))
    && r.hedgeCash == Cash(r.countHedge, b0.hedge)
    && r.lstCash == p.initCapital * Deployed(p)
    && r.hedgeCash == r.lstCash
    // the hedge is already re-derived from the looped leg
    && r.countHedge == HedgeUnits(p, r.countLoop, b0)
    && r.leverage == Deployed(p)
    && r.strategyCumret == 1.0 && r.strategyRet == 0.0
    && r.cumPnl == 0.0 && r.diffLst == 0.0
    // one-off bootstrap fees on the whole initial capital, both legs
    && r.lstFees == p.initCapital * p.spotFees * (1.0 + Max0(p.crossEx))
    && r.hedgeFees == p.initCapital * p.futFees
    && r.totalFees == r.lstFees + r.hedgeFees
  }

  /** Row 0, set up by hand before the loop. */
  function Init(p: Params, b0: Bar): (r: Result<Row>)
    requires b0.lst > 0.0 && b0.hedge > 0.0
    ensures r.Ok? <==> p.initCapital != 0.0
    ensures r.Err? ==> r.fault == ZeroCapital(0)
    ensures r.Ok? ==> InitFacts(p, b0, r.value)
  {
    if p.initCapital == 0.0 then Err(ZeroCapital(0))
    else
      var countHedge := p.initCapital * (HedgeW * (Deployed(p) / HedgeW)) / b0.hedge;
      var countLoop := p.initCapital * Deployed(p) / Scale(p, b0) / b0.lst;
      var lstCash := Cash(countLoop, LstPrice(p, b0));
      var hedgeCash := Cash(countHedge, b0.hedge);
      var lstFees := p.initCapital * p.spotFees + p.initCapital * (Max0(p.crossEx) * p.spotFees);
      var hedgeFees := p.initCapital * p.futFees;
      InitSizes(p, b0, countLoop, countHedge);
      Ok(Row(
        lstEx := Ex(p, b0),
        capital := p.initCapital,
        countLoop := countLoop,
        countHedge := countHedge,
        fundRet := 0.0, lstPnl := 0.0, fundPnl := 0.0, hedgePnl := 0.0, freePnl := 0.0,
        totalPnl := 0.0,
        lstCash := lstCash,
        hedgeCash := hedgeCash,
        cumPnl := 0.0, capitalDev := 0.0, positionDev := 0.0,
        diffLst := 0.0, diffHedge := 0.0,
        lstFees := lstFees,
        hedgeFees := hedgeFees,
        totalFees := lstFees + hedgeFees,
        lstCashEnd := 0.0, hedgeCashEnd := 0.0,
        leverage := lstCash / p.initCapital,
        strategyRet := 0.0,
        strategyCumret := 1.0))
  }

  /** The opening sizes put `init_capital * deployed` into each leg. */
  lemma InitSizes(p: Params, b0: Bar, countLoop: real, countHedge: real)
    requires b0.lst > 0.0 && b0.hedge > 0.0 && p.initCapital != 0.0
    requires countHedge == p.initCapital * (HedgeW * (Deployed(p) / HedgeW)) / b0.hedge
    requires countLoop == p.initCapital * Deployed(p) / Scale(p, b0) / b0.lst
    ensures Cash(countLoop, LstPrice(p, b0)) == p.initCapital * Deployed(p)
    ensures Cash(countHedge, b0.hedge) == p.initCapital * Deployed(p)
    ensures countHedge == HedgeUnits(p, countLoop, b0)
    ensures Cash(countLoop, LstPrice(p, b0)) / p.initCapital == Deployed(p)
  {
    var c := p.initCapital * Deployed(p);
    assert countLoop == Units(p, c, b0);
    assert HedgeW * (Deployed(p) / HedgeW) == Deployed(p);
    assert countHedge == c / b0.hedge;
    var h := HedgeUnits(p, countLoop, b0);
    assert h * b0.hedge == countHedge * b0.hedge;
  }

  /** What every step t >= 1 guarantees of its row `cur`, given the previous row `prev`,
      the previous bar `pb`, the current bar `b` and the first bar `b0`. */
  predicate StepFacts(pol: Policy, p: Params, b0: Bar, pb: Bar, b: Bar, prev: Row, cur: Row) {
    MarkFacts(p, pb, b, prev, cur) && TradeFacts(pol, p, b, prev, cur) && ResizeFacts(p, b0, b, prev, cur)
  }

  /** Mark-to-market of the previous position at the current bar. */
  predicate MarkFacts(p: Params, pb: Bar, b: Bar, prev: Row, cur: Row) {
    b.lst > 0.0 && b.hedge > 0.0 && p.initCapital != 0.0
    && cur.lstEx == Ex(p, b)
    // P&L from the previous step's sizes at the current prices
    && cur.lstPnl == Cash(prev.countLoop, LstPrice(p, b)) - Cash(prev.countLoop, LstPrice(p, pb))
    && cur.fundRet == b.funding * Deployed(p)
    && cur.fundPnl == Cash(Cash(prev.countHedge, pb.hedge), cur.fundRet)
    && cur.hedgePnl == Cash(Cash(prev.countHedge, pb.hedge), -b.hedgeRet)
    && cur.freePnl == cur.hedgePnl + cur.fundPnl
    && cur.lstCash == Cash(prev.countLoop, LstPrice(p, b))
    && cur.hedgeCash == Cash(prev.countHedge, b.hedge)
    // drift metrics
    && cur.capitalDev == (prev.cumPnl + cur.freePnl) / p.initCapital
    && cur.hedgeCash != 0.0
    && cur.positionDev == cur.lstCash / cur.hedgeCash - 1.0
  }

  /** The rebalance decision as the row records it. */
  predicate TradeFacts(pol: Policy, p: Params, b: Bar, prev: Row, cur: Row) {
    var cum := prev.cumPnl + cur.freePnl;
    var fired := ShouldRebalance(pol, p, cur.capitalDev, cur.positionDev, cum, TimeTrigger(p, b.hour));
    // the looped leg is a step function: it moves only by the traded units, and only when a trigger fired
    cur.countLoop == prev.countLoop + cur.diffLst
    && (cur.diffLst != 0.0 ==> fired)
    // buffer policies: buy only; a trade consumes the whole positive buffer, otherwise it carries forward
    && (pol.BufferDriven() ==>
          cur.diffLst >= 0.0
          && (cur.cumPnl == 0.0 || cur.cumPnl == cum)
          && (fired && cum > 0.0 ==> cur.cumPnl == 0.0 && Cash(cur.diffLst, LstPrice(p, b)) == cum)
          && (!(fired && cum > 0.0) ==> cur.diffLst == 0.0 && cur.cumPnl == cum))
    // the default policy sizes from the pre-fee step P&L and never resets the buffer
    && (pol.TimeOnly? ==>
          cur.cumPnl == cum
          && (TimeTrigger(p, b.hour) ==> Cash(cur.diffLst, LstPrice(p, b)) == cur.totalPnl + cur.totalFees))
  }

  /** Hedge re-derivation, fees, capital update and the derived outputs. */
  predicate ResizeFacts(p: Params, b0: Bar, b: Bar, prev: Row, cur: Row) {
    b.lst > 0.0 && b.hedge > 0.0 && p.initCapital != 0.0 && prev.capital != 0.0
    // the hedge is re-derived from the looped leg, never set on its own
    && cur.countHedge == HedgeUnits(p, cur.countLoop, b)
    && cur.diffHedge == cur.countHedge - prev.countHedge
    // fees: absolute traded notional times the fee rate
    && cur.lstFees == Fee(cur.diffLst, LstPrice(p, b), p.spotFees)
    && cur.hedgeFees == Fee(cur.diffHedge, b.hedge, p.futFees)
    && cur.totalFees == cur.lstFees + cur.hedgeFees
    // capital continuity with the post-fee step P&L
    && cur.totalPnl == cur.lstPnl + cur.hedgePnl + cur.fundPnl - cur.totalFees
    && cur.capital == prev.capital + cur.totalPnl
    && cur.capital != 0.0
    // derived outputs; the closing LST cash uses the first bar's cross factor
    && cur.lstCashEnd == Cash(cur.countLoop, EndPrice(p, b0, b))
    && cur.hedgeCashEnd == Cash(cur.countHedge, b.hedge)
    && cur.leverage == cur.lstCashEnd / cur.capital
    && cur.strategyCumret == cur.capital / p.initCapital
    && cur.strategyRet == cur.capital / prev.capital - 1.0
  }

  /** A trading fee: the absolute traded notional times the fee rate. */
  function Fee(units: real, price: real, rate: real): (f: real)
    ensures f >= 0.0
    ensures units == 0.0 ==> f == 0.0
  {
    Abs(units * price * rate)
  }

  /** The `fund_ret` column: the funding observation scaled by the hedge weight and
      by the deployed fraction over the hedge weight, which is the deployed fraction. */
  function FundRet(p: Params, b: Bar): (f: real)
    ensures f == b.funding * Deployed(p)
  {
    assert HedgeW * (Deployed(p) / HedgeW) == Deployed(p);
    b.funding * HedgeW * (Deployed(p) / HedgeW)
  }

  /** `lst_pnl`: the previous LST units marked from the previous to the current cash price. */
  function LstPnl(p: Params, pb: Bar, b: Bar, prev: Row): real {
    Cash(prev.countLoop, LstPrice(p, b)) - Cash(prev.countLoop, LstPrice(p, pb))
  }

  /** `hedge_pnl`: the short hedge's previous notional times minus the hedge return. */
  function HedgePnl(pb: Bar, b: Bar, prev: Row): real {
    Cash(Cash(prev.countHedge, pb.hedge), -b.hedgeRet)
  }

  /** `fund_pnl`: the hedge's previous notional times `fund_ret`. */
  function FundPnl(p: Params, pb: Bar, b: Bar, prev: Row): real {
    Cash(Cash(prev.countHedge, pb.hedge), FundRet(p, b))
  }

  /** The trade the policy makes at a step whose hedge cash is non-zero, from the buffer
      `cum_pnl[t-1] + free_pnl`, both drift metrics and the pre-fee step P&L. */
  function StepDecision(pol: Policy, p: Params, pb: Bar, b: Bar, prev: Row): Decision
    requires b.lst > 0.0 && p.initCapital != 0.0 && Cash(prev.countHedge, b.hedge) != 0.0
  {
    var cum := prev.cumPnl + (HedgePnl(pb, b, prev) + FundPnl(p, pb, b, prev));
    Decide(pol, p, b, cum / p.initCapital, Cash(prev.countLoop, LstPrice(p, b)) / Cash(prev.countHedge, b.hedge) - 1.0,
           cum, LstPnl(p, pb, b, prev) + HedgePnl(pb, b, prev) + FundPnl(p, pb, b, prev), TimeTrigger(p, b.hour))
  }

  /** The capital a step reaches when its hedge cash is non-zero: the previous capital
      plus the step's P&L after the fees of the trade the policy makes. */
  function StepCapital(pol: Policy, p: Params, pb: Bar, b: Bar, prev: Row): real
    requires b.lst > 0.0 && b.hedge > 0.0 && p.initCapital != 0.0
    requires Cash(prev.countHedge, b.hedge) != 0.0
  {
    var d := StepDecision(pol, p, pb, b, prev);
    var countHedge := HedgeUnits(p, prev.countLoop + d.diffLst, b);
    var totalFees := Fee(d.diffLst, LstPrice(p, b), p.spotFees) + Fee(countHedge - prev.countHedge, b.hedge, p.futFees);
    prev.capital + ((LstPnl(p, pb, b, prev) + HedgePnl(pb, b, prev) + FundPnl(p, pb, b, prev)) - totalFees)
  }

  /** One step of the recurrence: row t from row t-1. */
  function Step(pol: Policy, p: Params, b0: Bar, pb: Bar, b: Bar, prev: Row, t: nat): (r: Result<Row>)
    requires b.lst > 0.0 && b.hedge > 0.0
    requires p.initCapital != 0.0 && prev.capital != 0.0
    ensures r.Ok? ==> r.value.capital != 0.0
    ensures r == Err(ZeroHedgeCash(t)) <==> Cash(prev.countHedge, b.hedge) == 0.0
    ensures r.Err? ==> r == Err(ZeroHedgeCash(t)) || r == Err(ZeroCapital(t))
  {
    var price := LstPrice(p, b);
    var fundRet := FundRet(p, b);
    var lstPnl := LstPnl(p, pb, b, prev);
    var fundPnl := FundPnl(p, pb, b, prev);
    var hedgePnl := HedgePnl(pb, b, prev);
    var freePnl := hedgePnl + fundPnl;
    var grossPnl := lstPnl + hedgePnl + fundPnl;
    var lstCash := Cash(prev.countLoop, price);
    var hedgeCash := Cash(prev.countHedge, b.hedge);
    var cum := prev.cumPnl + freePnl;
    var capitalDev := cum / p.initCapital;
    if hedgeCash == 0.0 then Err(ZeroHedgeCash(t))
    else
      var positionDev := lstCash / hedgeCash - 1.0;
      var d := StepDecision(pol, p, pb, b, prev);
      var countLoop := prev.countLoop + d.diffLst;
      var countHedge := HedgeUnits(p, countLoop, b);
      var diffHedge := countHedge - prev.countHedge;
      var lstFees := Fee(d.diffLst, price, p.spotFees);
      var hedgeFees := Fee(diffHedge, b.hedge, p.futFees);
      var totalFees := lstFees + hedgeFees;
      var totalPnl := grossPnl - totalFees;
      var capital := prev.capital + totalPnl;
      if capital == 0.0 then Err(ZeroCapital(t))
      else
        var lstCashEnd := Cash(countLoop, EndPrice(p, b0, b));
        Ok(Row(
          lstEx := Ex(p, b),
          capital := capital,
          countLoop := countLoop,
          countHedge := countHedge,
          fundRet := fundRet,
          lstPnl := lstPnl,
          fundPnl := fundPnl,
          hedgePnl := hedgePnl,
          freePnl := freePnl,
          totalPnl := totalPnl,
          lstCash := lstCash,
          hedgeCash := hedgeCash,
          cumPnl := d.cumPnl,
          capitalDev := capitalDev,
          positionDev := positionDev,
          diffLst := d.diffLst,
          diffHedge := diffHedge,
          lstFees := lstFees,
          hedgeFees := hedgeFees,
          totalFees := totalFees,
          lstCashEnd := lstCashEnd,
          hedgeCashEnd := Cash(countHedge, b.hedge),
          leverage := lstCashEnd / capital,
          strategyRet := capital / prev.capital - 1.0,
          strategyCumret := capital / p.initCapital))
  }

  /** A step fails exactly when one of its two divisors is zero, and names that divisor;
      a computed row carries the capital the step reaches. */
  lemma StepFaults(pol: Policy, p: Params, b0: Bar, pb: Bar, b: Bar, prev: Row, t: nat)
    requires b.lst > 0.0 && b.hedge > 0.0 && p.initCapital != 0.0 && prev.capital != 0.0
    ensures var r := Step(pol, p, b0, pb, b, prev, t);
            (r == Err(ZeroCapital(t)) <==>
               Cash(prev.countHedge, b.hedge) != 0.0 && StepCapital(pol, p, pb, b, prev) == 0.0)
            && (r.Ok? <==> Cash(prev.countHedge, b.hedge) != 0.0 && StepCapital(pol, p, pb, b, prev) != 0.0)
            && (r.Ok? ==> r.value.capital == StepCapital(pol, p, pb, b, prev))
  {
  }

  /** The mark-to-market columns of a computed row. */
  lemma StepMarks(pol: Policy, p: Params, b0: Bar, pb: Bar, b: Bar, prev: Row, t: nat)
    requires b.lst > 0.0 && b.hedge > 0.0 && p.initCapital != 0.0 && prev.capital != 0.0
    ensures Step(pol, p, b0, pb, b, prev, t).Ok? ==> MarkFacts(p, pb, b, prev, Step(pol, p, b0, pb, b, prev, t).value)
  {
  }

  /** The trade columns of a computed row, from the trade the policy decides. */
  lemma StepTrade(pol: Policy, p: Params, b0: Bar, pb: Bar, b: Bar, prev: Row, t: nat)
    requires b.lst > 0.0 && b.hedge > 0.0 && p.initCapital != 0.0 && prev.capital != 0.0
    ensures Step(pol, p, b0, pb, b, prev, t).Ok? ==> TradeFacts(pol, p, b, prev, Step(pol, p, b0, pb, b, prev, t).value)
  {
    var cum := prev.cumPnl + (HedgePnl(pb, b, prev) + FundPnl(p, pb, b, prev));
    var hedgeCash := Cash(prev.countHedge, b.hedge);
    if hedgeCash != 0.0 {
      DecideConverts(pol, p, b, cum / p.initCapital, Cash(prev.countLoop, LstPrice(p, b)) / hedgeCash - 1.0,
                     cum, LstPnl(p, pb, b, prev) + HedgePnl(pb, b, prev) + FundPnl(p, pb, b, prev), TimeTrigger(p, b.hour));
    }
  }

  /** The resize, fee, capital and ratio columns of a computed row. */
  lemma StepResize(pol: Policy, p: Params, b0: Bar, pb: Bar, b: Bar, prev: Row, t: nat)
    requires b.lst > 0.0 && b.hedge > 0.0 && p.initCapital != 0.0 && prev.capital != 0.0
    ensures Step(pol, p, b0, pb, b, prev, t).Ok? ==> ResizeFacts(p, b0, b, prev, Step(pol, p, b0, pb, b, prev, t).value)
  {
  }

  /** Every row the step produces satisfies the step invariants. */
  lemma StepSound(pol: Policy, p: Params, b0: Bar, pb: Bar, b: Bar, prev: Row, t: nat)
    requires b.lst > 0.0 && b.hedge > 0.0 && p.initCapital != 0.0 && prev.capital != 0.0
    ensures Step(pol, p, b0, pb, b, prev, t).Ok? ==> StepFacts(pol, p, b0, pb, b, prev, Step(pol, p, b0, pb, b, prev, t).value)
  {
    StepMarks(pol, p, b0, pb, b, prev, t);
    StepTrade(pol, p, b0, pb, b, prev, t);
    StepResize(pol, p, b0, pb, b, prev, t);
  }

  /** The run continued from an already computed prefix `rows` of the table: each
      further row is the step from the row before it, and the first step that cannot be
      computed ends the run with its fault. Rows already computed are never revised. */
  function RunFrom(pol: Policy, p: Params, bars: seq<Bar>, rows: seq<Row>): (r: Result<seq<Row>>)
    requires PricesPositive(bars) && 1 <= |rows| <= |bars|
    requires p.initCapital != 0.0 && rows[|rows| - 1].capital != 0.0
    ensures r.Ok? ==> |r.value| == |bars| && r.value[..|rows|] == rows
    ensures r.Err? ==> (r.fault.ZeroHedgeCash? || r.fault.ZeroCapital?) && |rows| <= r.fault.row < |bars|
    decreases |bars| - |rows|
  {
    if |rows| == |bars| then Ok(rows)
    else
      var t := |rows|;
      match Step(pol, p, bars[0], bars[t - 1], bars[t], rows[t - 1], t)
      case Err(f) => Err(f)
      case Ok(row) =>
        var r := RunFrom(pol, p, bars, rows + [row]);
        assert r.Ok? ==> r.value[..t] == (rows + [row])[..t] == rows;
        r
  }

  /** The whole backtest: row 0 from the first bar, then the steps folded over the rest. */
  function Simulate(pol: Policy, p: Params, bars: seq<Bar>): (r: Result<seq<Row>>)
    requires PricesPositive(bars)
    ensures r.Ok? ==> |r.value| == |bars|
    ensures r == Err(NoValidRow) <==> |bars| == 0
    // row 0 fails only on a zero initial capital; any later fault names the failing row
    ensures |bars| > 0 ==> (r == Err(ZeroCapital(0)) <==> p.initCapital == 0.0)
    ensures r.Err? && r.fault != NoValidRow ==> r.fault.row < |bars|
  {
    if |bars| == 0 then Err(NoValidRow)
    else
      match Init(p, bars[0])
      case Err(f) => Err(f)
      case Ok(row) => RunFrom(pol, p, bars, [row])
  }

  /** The rows the run has computed when it stops: all of them, or those before the first
      step that cannot be computed. */
  function Partial(pol: Policy, p: Params, bars: seq<Bar>, rows: seq<Row>): (pre: seq<Row>)
    requires PricesPositive(bars) && 1 <= |rows| <= |bars|
    requires p.initCapital != 0.0 && rows[|rows| - 1].capital != 0.0
    ensures |rows| <= |pre| <= |bars| && pre[..|rows|] == rows && pre[|pre| - 1].capital != 0.0
    decreases |bars| - |rows|
  {
    if |rows| == |bars| then rows
    else
      var t := |rows|;
      match Step(pol, p, bars[0], bars[t - 1], bars[t], rows[t - 1], t)
      case Err(_) => rows
      case Ok(row) =>
        var pre := Partial(pol, p, bars, rows + [row]);
        assert pre[..t] == pre[..t + 1][..t] == (rows + [row])[..t] == rows;
        pre
  }

  /** A run that fails does so right after the rows it computed: it names the next row,
      and continuing from the computed rows fails in the same way. */
  lemma {:induction false} RunFromFailure(pol: Policy, p: Params, bars: seq<Bar>, rows: seq<Row>)
    requires PricesPositive(bars) && 1 <= |rows| <= |bars|
    requires p.initCapital != 0.0 && rows[|rows| - 1].capital != 0.0
    requires RunFrom(pol, p, bars, rows).Err?
    ensures var pre, f := Partial(pol, p, bars, rows), RunFrom(pol, p, bars, rows).fault;
            |pre| == f.row < |bars| && RunFrom(pol, p, bars, pre) == Err(f)
    decreases |bars| - |rows|
  {
    var t := |rows|;
    var next := Step(pol, p, bars[0], bars[t - 1], bars[t], rows[t - 1], t);
    if next.Ok? {
      RunFromFailure(pol, p, bars, rows + [next.value]);
      assert Partial(pol, p, bars, rows) == Partial(pol, p, bars, rows + [next.value]);
      assert RunFrom(pol, p, bars, rows) == RunFrom(pol, p, bars, rows + [next.value]);
    } else {
      assert Partial(pol, p, bars, rows) == rows;
    }
  }

  /** A run that succeeds has computed every row. */
  lemma {:induction false} RunFromComplete(pol: Policy, p: Params, bars: seq<Bar>, rows: seq<Row>)
    requires PricesPositive(bars) && 1 <= |rows| <= |bars|
    requires p.initCapital != 0.0 && rows[|rows| - 1].capital != 0.0
    requires RunFrom(pol, p, bars, rows).Ok?
    ensures RunFrom(pol, p, bars, rows) == Ok(Partial(pol, p, bars, rows))
    decreases |bars| - |rows|
  {
    var t := |rows|;
    if t < |bars| {
      var next := Step(pol, p, bars[0], bars[t - 1], bars[t], rows[t - 1], t);
      RunFromComplete(pol, p, bars, rows + [next.value]);
    }
  }

  /** A failing run stops at the first step that cannot be computed, from the last row it
      computed, and the fault names that step's zero divisor. */
  lemma FaultCause(pol: Policy, p: Params, bars: seq<Bar>, rows: seq<Row>)
    requires PricesPositive(bars) && 1 <= |rows| <= |bars|
    requires p.initCapital != 0.0 && rows[|rows| - 1].capital != 0.0
    requires RunFrom(pol, p, bars, rows).Err?
    ensures var pre, f := Partial(pol, p, bars, rows), RunFrom(pol, p, bars, rows).fault;
            |pre| == f.row < |bars|
            && Step(pol, p, bars[0], bars[|pre| - 1], bars[|pre|], pre[|pre| - 1], |pre|) == Err(f)
            && (f == ZeroHedgeCash(|pre|) <==> Cash(pre[|pre| - 1].countHedge, bars[|pre|].hedge) == 0.0)
            && (f == ZeroCapital(|pre|) <==>
                  Cash(pre[|pre| - 1].countHedge, bars[|pre|].hedge) != 0.0
                  && StepCapital(pol, p, bars[|pre| - 1], bars[|pre|], pre[|pre| - 1]) == 0.0)
  {
    RunFromFailure(pol, p, bars, rows);
    var pre := Partial(pol, p, bars, rows);
    StepFaults(pol, p, bars[0], bars[|pre| - 1], bars[|pre|], pre[|pre| - 1], |pre|);
  }

  /** The rows computed before the run stops satisfy the run invariants. */
  lemma {:induction false} PartialConsistent(pol: Policy, p: Params, bars: seq<Bar>, rows: seq<Row>)
    requires PricesPositive(bars) && 1 <= |rows| <= |bars|
    requires p.initCapital != 0.0 && rows[|rows| - 1].capital != 0.0
    requires Consistent(pol, p, bars, rows)
    ensures Consistent(pol, p, bars, Partial(pol, p, bars, rows))
    decreases |bars| - |rows|
  {
    var t := |rows|;
    if t < |bars| {
      var next := Step(pol, p, bars[0], bars[t - 1], bars[t], rows[t - 1], t);
      if next.Ok? {
        StepSound(pol, p, bars[0], bars[t - 1], bars[t], rows[t - 1], t);
        ExtendConsistent(pol, p, bars, rows, next.value);
        PartialConsistent(pol, p, bars, rows + [next.value]);
      }
    }
  }

  /** The rows a backtest computes before it stops: row 0 and every computed step. */
  function Computed(pol: Policy, p: Params, bars: seq<Bar>): (pre: seq<Row>)
    requires PricesPositive(bars) && |bars| > 0 && p.initCapital != 0.0
    ensures 1 <= |pre| <= |bars|
  {
    Partial(pol, p, bars, [Init(p, bars[0]).value])
  }

  /** A backtest that fails past row 0 stops at the first step that cannot be computed:
      the fault names the row after the computed ones and that step's zero divisor. */
  lemma SimulateFailure(pol: Policy, p: Params, bars: seq<Bar>)
    requires PricesPositive(bars) && |bars| > 0 && p.initCapital != 0.0
    requires Simulate(pol, p, bars).Err?
    ensures var pre, f := Computed(pol, p, bars), Simulate(pol, p, bars).fault;
            |pre| == f.row < |bars|
            && Step(pol, p, bars[0], bars[|pre| - 1], bars[|pre|], pre[|pre| - 1], |pre|) == Err(f)
            && (f.ZeroHedgeCash? <==> Cash(pre[|pre| - 1].countHedge, bars[|pre|].hedge) == 0.0)
            && (f.ZeroCapital? <==>
                  Cash(pre[|pre| - 1].countHedge, bars[|pre|].hedge) != 0.0
                  && StepCapital(pol, p, bars[|pre| - 1], bars[|pre|], pre[|pre| - 1]) == 0.0)
  {
    FaultCause(pol, p, bars, [Init(p, bars[0]).value]);
  }

  /** The rows a backtest computes, up to a failure or to the end, satisfy the run
      invariants; a successful backtest is exactly those rows. */
  lemma ComputedConsistent(pol: Policy, p: Params, bars: seq<Bar>)
    requires PricesPositive(bars) && |bars| > 0 && p.initCapital != 0.0
    ensures Consistent(pol, p, bars, Computed(pol, p, bars))
    ensures Simulate(pol, p, bars).Ok? ==> Simulate(pol, p, bars) == Ok(Computed(pol, p, bars))
  {
    var row := Init(p, bars[0]).value;
    assert Consistent(pol, p, bars, [row]);
    PartialConsistent(pol, p, bars, [row]);
    if Simulate(pol, p, bars).Ok? {
      RunFromComplete(pol, p, bars, [row]);
    }
  }

  /** The invariants every prefix of a successful run satisfies. */
  predicate Consistent(pol: Policy, p: Params, bars: seq<Bar>, rows: seq<Row>) {
    PricesPositive(bars) && 1 <= |rows| <= |bars|
    && InitFacts(p, bars[0], rows[0])
    && forall t :: 1 <= t < |rows| ==> StepFacts(pol, p, bars[0], bars[t - 1], bars[t], rows[t - 1], rows[t])
  }

  /** Continuing a consistent prefix gives a consistent table. */
  lemma {:induction false} RunFromConsistent(pol: Policy, p: Params, bars: seq<Bar>, rows: seq<Row>)
    requires PricesPositive(bars) && 1 <= |rows| <= |bars|
    requires p.initCapital != 0.0 && rows[|rows| - 1].capital != 0.0
    requires Consistent(pol, p, bars, rows)
    ensures RunFrom(pol, p, bars, rows).Ok? ==> Consistent(pol, p, bars, RunFrom(pol, p, bars, rows).value)
    decreases |bars| - |rows|
  {
    if |rows| < |bars| {
      var t := |rows|;
      var next := Step(pol, p, bars[0], bars[t - 1], bars[t], rows[t - 1], t);
      if next.Ok? {
        StepSound(pol, p, bars[0], bars[t - 1], bars[t], rows[t - 1], t);
        ExtendConsistent(pol, p, bars, rows, next.value);
        RunFromConsistent(pol, p, bars, rows + [next.value]);
      }
    }
  }

  /** Every successful run satisfies the run invariants. */
  lemma SimulateConsistent(pol: Policy, p: Params, bars: seq<Bar>)
    requires PricesPositive(bars)
    ensures Simulate(pol, p, bars).Ok? ==> Consistent(pol, p, bars, Simulate(pol, p, bars).value)
  {
    if |bars| > 0 && Init(p, bars[0]).Ok? {
      var row := Init(p, bars[0]).value;
      assert Consistent(pol, p, bars, [row]);
      RunFromConsistent(pol, p, bars, [row]);
    }
  }

  /** Appending a row that satisfies the step invariants keeps a prefix consistent. */
  lemma ExtendConsistent(pol: Policy, p: Params, bars: seq<Bar>, rows: seq<Row>, row: Row)
    requires Consistent(pol, p, bars, rows) && |rows| < |bars|
    requires StepFacts(pol, p, bars[0], bars[|rows| - 1], bars[|rows|], rows[|rows| - 1], row)
    ensures Consistent(pol, p, bars, rows + [row])
  {
    var all := rows + [row];
    forall t | 1 <= t < |all|
      ensures StepFacts(pol, p, bars[0], bars[t - 1], bars[t], all[t - 1], all[t])
    {
      if t < |rows| {
        assert all[t - 1] == rows[t - 1] && all[t] == rows[t];
      }
    }
  }

  /** The rebalance branch of one step: sets `diff_lst` and overwrites `cum_pnl`
      exactly as the policy's branch does. */
  method Trade(pol: Policy, p: Params, b: Bar, capitalDev: real, positionDev: real, cum: real, totalPnl: real, byTime: bool)
    returns (diffLst: real, cumPnl: real)
    requires b.lst > 0.0
    ensures Decision(diffLst, cumPnl) == Decide(pol, p, b, capitalDev, positionDev, cum, totalPnl, byTime)
  {
    var scale := Scale(p, b);
    diffLst, cumPnl := 0.0, cum;
    match pol {
      case CapDev =>
        if Abs(capitalDev) >= p.deviation || byTime {
          if cumPnl > 0.0 {
            diffLst := cumPnl / scale / b.lst;
            cumPnl := 0.0;
          }
        }
      case CapDevOnlyBuy =>
        if (capitalDev >= p.deviation || byTime) && cumPnl > 0.0 {
          diffLst := cumPnl / scale / b.lst;
          if diffLst < 0.0 {
            diffLst := 0.0;
          }
          cumPnl := 0.0;
        }
      case PosDev =>
        if Abs(positionDev) >= p.deviation || byTime {
          if cumPnl > 0.0 {
            diffLst := cumPnl / scale / b.lst;
            cumPnl := 0.0;
          }
        }
      case PosDevOnlyBuy =>
        if (positionDev >= p.deviation || byTime) && cumPnl > 0.0 {
          diffLst := cumPnl / scale / b.lst;
          if diffLst < 0.0 {
            diffLst := 0.0;
          }
          cumPnl := 0.0;
        }
      case TimeOnly =>
        if byTime {
          diffLst := totalPnl / scale / b.lst;
        }
    }
  }

  /** One pass of the loop: row t from row t-1, overwriting `cum_pnl` and `total_pnl`
      within the step exactly where the program does. */
  method StepRow(pol: Policy, p: Params, b0: Bar, pb: Bar, b: Bar, prev: Row, t: nat) returns (r: Result<Row>)
    requires b.lst > 0.0 && b.hedge > 0.0
    requires p.initCapital != 0.0 && prev.capital != 0.0
    ensures r == Step(pol, p, b0, pb, b, prev, t)
  {
    var fundRet := FundRet(p, b);
    var lstPnl := Cash(prev.countLoop, LstPrice(p, b)) - Cash(prev.countLoop, LstPrice(p, pb));
    var fundPnl := Cash(Cash(prev.countHedge, pb.hedge), fundRet);
    var hedgePnl := Cash(Cash(prev.countHedge, pb.hedge), -b.hedgeRet);
    var freePnl := hedgePnl + fundPnl;
    var totalPnl := lstPnl + hedgePnl + fundPnl;
    var lstCash := Cash(prev.countLoop, LstPrice(p, b));
    var hedgeCash := Cash(prev.countHedge, b.hedge);
    var cumPnl := prev.cumPnl + freePnl;
    var capitalDev := cumPnl / p.initCapital;
    if hedgeCash == 0.0 {
      return Err(ZeroHedgeCash(t));
    }
    var positionDev := lstCash / hedgeCash - 1.0;
    var diffLst;
    diffLst, cumPnl := Trade(pol, p, b, capitalDev, positionDev, cumPnl, totalPnl, TimeTrigger(p, b.hour));
    var countLoop := prev.countLoop + diffLst;
    var lstFees := Fee(diffLst, LstPrice(p, b), p.spotFees);
    var countHedge := HedgeUnits(p, countLoop, b);
    var diffHedge := countHedge - prev.countHedge;
    var hedgeFees := Fee(diffHedge, b.hedge, p.futFees);
    var totalFees := lstFees + hedgeFees;
    totalPnl := totalPnl - totalFees;
    var capital := prev.capital + totalPnl;
    if capital == 0.0 {
      return Err(ZeroCapital(t));
    }
    var lstCashEnd := Cash(countLoop, EndPrice(p, b0, b));
    var row := Row(
      lstEx := Ex(p, b),
      capital := capital,
      countLoop := countLoop,
      countHedge := countHedge,
      fundRet := fundRet,
      lstPnl := lstPnl,
      fundPnl := fundPnl,
      hedgePnl := hedgePnl,
      freePnl := freePnl,
      totalPnl := totalPnl,
      lstCash := lstCash,
      hedgeCash := hedgeCash,
      cumPnl := cumPnl,
      capitalDev := capitalDev,
      positionDev := positionDev,
      diffLst := diffLst,
      diffHedge := diffHedge,
      lstFees := lstFees,
      hedgeFees := hedgeFees,
      totalFees := totalFees,
      lstCashEnd := lstCashEnd,
      hedgeCashEnd := Cash(countHedge, b.hedge),
      leverage := lstCashEnd / capital,
      strategyRet := capital / prev.capital - 1.0,
      strategyCumret := capital / p.initCapital);
    r := Ok(row);
  }

  /** Writes row `i` of the table, keeping the rows before it. */
  method Store(out: array<Row>, i: int, row: Row)
    requires 0 <= i < out.Length
    modifies out
    ensures out[..i + 1] == old(out[..i]) + [row]
  {
    out[i] := row;
  }

  /** `run_strategy`: sets up row 0, then fills the table row by row. */
  method RunStrategy(bars: seq<Bar>, pol: Policy, p: Params) returns (res: Result<seq<Row>>)
    requires PricesPositive(bars)
    ensures res == Simulate(pol, p, bars)
  {
    if |bars| == 0 {
      return Err(NoValidRow);
    }
    var first := Init(p, bars[0]);
    if first.Err? {
      return Err(first.fault);
    }
    var out := new Row[|bars|];
    Store(out, 0, first.value);
    ghost var rows := [first.value];
    var prev := first.value;
    var i := 1;
    while i < |bars|
      invariant 1 <= i <= |bars| == out.Length && |rows| == i
      invariant out[..i] == rows && prev == rows[i - 1]
      invariant p.initCapital != 0.0 && prev.capital != 0.0
      invariant Simulate(pol, p, bars) == RunFrom(pol, p, bars, rows)
    {
      var next := StepRow(pol, p, bars[0], bars[i - 1], bars[i], prev, i);
      if next.Err? {
        return Err(next.fault);
      }
      Store(out, i, next.value);
      rows := rows + [next.value];
      prev := next.value;
      i := i + 1;
    }
    assert out[..] == out[..i];
    res := Ok(out[..]);
  }
}
