/** Run-level properties of the backtest table: capital continuity, hedge
    re-derivation, the buffer, fees, holding without triggers and causality. */
module Properties {
  import opened Inputs
  import opened Rebalance
  import opened Engine

  /** The step invariants of row t of a consistent table. */
  lemma FactsAt(pol: Policy, p: Params, bars: seq<Bar>, rows: seq<Row>, t: nat)
    requires Consistent(pol, p, bars, rows) && 1 <= t < |rows|
    ensures StepFacts(pol, p, bars[0], bars[t - 1], bars[t], rows[t - 1], rows[t])
  {
  }

  /** The resize part of the step invariants of row t, with the unit and ratio columns. */
  lemma ResizeAt(pol: Policy, p: Params, bars: seq<Bar>, rows: seq<Row>, t: nat)
    requires Consistent(pol, p, bars, rows) && 1 <= t < |rows|
    ensures ResizeFacts(p, bars[0], bars[t], rows[t - 1], rows[t])
    ensures rows[t].countLoop == rows[t - 1].countLoop + rows[t].diffLst
    ensures rows[t].lstEx == Ex(p, bars[t])
  {
    FactsAt(pol, p, bars, rows, t);
  }

  /** Sum of the post-fee step P&L over rows 1..t. */
  function PnlSum(rows: seq<Row>, t: nat): real
    requires t < |rows|
  {
    if t == 0 then 0.0 else PnlSum(rows, t - 1) + rows[t].totalPnl
  }

  /** Sum of the pre-fee step P&L (spot, hedge and funding legs) over rows 1..t. */
  function GrossSum(rows: seq<Row>, t: nat): real
    requires t < |rows|
  {
    if t == 0 then 0.0 else GrossSum(rows, t - 1) + (rows[t].lstPnl + rows[t].hedgePnl + rows[t].fundPnl)
  }

  /** Sum of the trading fees charged over rows 1..t. */
  function FeeSum(rows: seq<Row>, t: nat): real
    requires t < |rows|
  {
    if t == 0 then 0.0 else FeeSum(rows, t - 1) + rows[t].totalFees
  }

  /** Sum of the hedge and funding P&L over rows 1..t. */
  function FreeSum(rows: seq<Row>, t: nat): real
    requires t < |rows|
  {
    if t == 0 then 0.0 else FreeSum(rows, t - 1) + rows[t].freePnl
  }

  /** Capital continuity: capital is the initial capital plus every post-fee step P&L,
      that is the gross P&L of the three legs less the fees paid, which never go negative. */
  lemma {:induction false} CapitalContinuity(pol: Policy, p: Params, bars: seq<Bar>, rows: seq<Row>, t: nat)
    requires Consistent(pol, p, bars, rows) && t < |rows|
    ensures rows[t].capital == p.initCapital + PnlSum(rows, t)
    ensures PnlSum(rows, t) == GrossSum(rows, t) - FeeSum(rows, t)
    ensures FeeSum(rows, t) >= 0.0
  {
    if t > 0 {
      CapitalContinuity(pol, p, bars, rows, t - 1);
      FactsAt(pol, p, bars, rows, t);
    }
  }

  /** Hedge re-derivation at every row, row 0 included: the hedge is `count_loop * {lst}_ex`,
      so both legs carry the same notional at the row's prices. */
  lemma HedgeRederived(pol: Policy, p: Params, bars: seq<Bar>, rows: seq<Row>, t: nat)
    requires Consistent(pol, p, bars, rows) && t < |rows|
    ensures rows[t].lstEx == Ex(p, bars[t])
    ensures rows[t].countHedge == HedgeUnits(p, rows[t].countLoop, bars[t])
    ensures Cash(rows[t].countHedge, bars[t].hedge) == Cash(rows[t].countLoop, LstPrice(p, bars[t]))
  {
    if t > 0 {
      FactsAt(pol, p, bars, rows, t);
    }
  }

  /** Fees of a step are never negative. Without a spot trade no spot fee is paid and the
      hedge moves only by the drift of `{lst}_ex`; if that ratio is unchanged too, the step
      is free. */
  lemma {:induction false} StepFees(pol: Policy, p: Params, bars: seq<Bar>, rows: seq<Row>, t: nat)
    requires Consistent(pol, p, bars, rows) && 1 <= t < |rows|
    ensures rows[t].lstFees >= 0.0 && rows[t].hedgeFees >= 0.0
    ensures rows[t].totalFees == rows[t].lstFees + rows[t].hedgeFees
    ensures rows[t].diffLst == 0.0 ==>
              rows[t].lstFees == 0.0
              && rows[t].diffHedge == HedgeUnits(p, rows[t - 1].countLoop, bars[t]) - HedgeUnits(p, rows[t - 1].countLoop, bars[t - 1])
    ensures rows[t].diffLst == 0.0 && rows[t].lstEx == rows[t - 1].lstEx ==> rows[t].totalFees == 0.0
  {
    ResizeAt(pol, p, bars, rows, t);
    HedgeRederived(pol, p, bars, rows, t - 1);
    StepFeesOf(p, bars[0], bars[t - 1], bars[t], rows[t - 1], rows[t]);
  }

  /** The fee facts of one step, from its resize facts and a previous hedge that was
      itself re-derived at the previous bar. */
  lemma StepFeesOf(p: Params, b0: Bar, pb: Bar, b: Bar, prev: Row, cur: Row)
    requires ResizeFacts(p, b0, b, prev, cur) && cur.countLoop == prev.countLoop + cur.diffLst
    requires cur.lstEx == Ex(p, b) && pb.lst > 0.0 && pb.hedge > 0.0
    requires prev.lstEx == Ex(p, pb) && prev.countHedge == HedgeUnits(p, prev.countLoop, pb)
    ensures cur.lstFees >= 0.0 && cur.hedgeFees >= 0.0
    ensures cur.totalFees == cur.lstFees + cur.hedgeFees
    ensures cur.diffLst == 0.0 ==>
              cur.lstFees == 0.0 && cur.diffHedge == HedgeUnits(p, prev.countLoop, b) - HedgeUnits(p, prev.countLoop, pb)
    ensures cur.diffLst == 0.0 && cur.lstEx == prev.lstEx ==> cur.totalFees == 0.0
  {
    if cur.diffLst == 0.0 {
      HedgeDrift(p, prev.countLoop, pb, b);
    }
  }

  /** Holding `u` LST units, the re-derived hedge moves by `u` times the change of `{lst}_ex`. */
  lemma HedgeDrift(p: Params, u: real, pb: Bar, b: Bar)
    requires pb.lst > 0.0 && pb.hedge > 0.0 && b.lst > 0.0 && b.hedge > 0.0
    ensures HedgeUnits(p, u, b) - HedgeUnits(p, u, pb) == u * (Ex(p, b) - Ex(p, pb))
  {
    assert HedgeUnits(p, u, b) == u * Ex(p, b);
    assert HedgeUnits(p, u, pb) == u * Ex(p, pb);
  }

  /** `count_loop` is a step function: it moves only by the traded units, and a step in
      which no trigger fires trades nothing. */
  lemma LoopStepFunction(pol: Policy, p: Params, bars: seq<Bar>, rows: seq<Row>, t: nat)
    requires Consistent(pol, p, bars, rows) && 1 <= t < |rows|
    ensures rows[t].countLoop == rows[t - 1].countLoop + rows[t].diffLst
    ensures !ShouldRebalance(pol, p, rows[t].capitalDev, rows[t].positionDev,
                             rows[t - 1].cumPnl + rows[t].freePnl, TimeTrigger(p, bars[t].hour)) ==>
              rows[t].diffLst == 0.0 && rows[t].countLoop == rows[t - 1].countLoop
  {
    FactsAt(pol, p, bars, rows, t);
  }

  /** The buffer `cum_pnl[t-1] + free_pnl[t]` of a buffer policy: a trigger on a positive
      buffer converts all of it into LST and resets it to 0; otherwise nothing is traded
      and the buffer carries forward. */
  lemma BufferTrades(pol: Policy, p: Params, bars: seq<Bar>, rows: seq<Row>, t: nat)
    requires Consistent(pol, p, bars, rows) && 1 <= t < |rows| && pol.BufferDriven()
    ensures var cum := rows[t - 1].cumPnl + rows[t].freePnl;
            ShouldRebalance(pol, p, rows[t].capitalDev, rows[t].positionDev, cum, TimeTrigger(p, bars[t].hour)) && cum > 0.0 ==>
              rows[t].cumPnl == 0.0 && Cash(rows[t].diffLst, LstPrice(p, bars[t])) == cum
    ensures var cum := rows[t - 1].cumPnl + rows[t].freePnl;
            !(ShouldRebalance(pol, p, rows[t].capitalDev, rows[t].positionDev, cum, TimeTrigger(p, bars[t].hour)) && cum > 0.0) ==>
              rows[t].diffLst == 0.0 && rows[t].cumPnl == cum
  {
    FactsAt(pol, p, bars, rows, t);
  }

  /** The buffer policies only ever buy: the looped leg never shrinks. */
  lemma {:induction false} BufferPoliciesNeverSell(pol: Policy, p: Params, bars: seq<Bar>, rows: seq<Row>, t: nat)
    requires Consistent(pol, p, bars, rows) && t < |rows| && pol.BufferDriven()
    ensures rows[t].countLoop >= rows[0].countLoop
    ensures t >= 1 ==> rows[t].diffLst >= 0.0 && rows[t].countLoop >= rows[t - 1].countLoop
  {
    if t > 0 {
      BufferPoliciesNeverSell(pol, p, bars, rows, t - 1);
      FactsAt(pol, p, bars, rows, t);
    }
  }

  /** A buy-only policy trades only on a positive buffer; the trade is worth the whole
      buffer and leaves it empty. */
  lemma BuyOnlyTrades(pol: Policy, p: Params, bars: seq<Bar>, rows: seq<Row>, t: nat)
    requires Consistent(pol, p, bars, rows) && 1 <= t < |rows| && pol.BuyOnly()
    requires rows[t].diffLst != 0.0
    ensures rows[t - 1].cumPnl + rows[t].freePnl > 0.0
    ensures rows[t].cumPnl == 0.0
    ensures Cash(rows[t].diffLst, LstPrice(p, bars[t])) == rows[t - 1].cumPnl + rows[t].freePnl
    ensures rows[t].diffLst > 0.0
  {
    FactsAt(pol, p, bars, rows, t);
    var b, cum := bars[t], rows[t - 1].cumPnl + rows[t].freePnl;
    assert Cash(rows[t].diffLst, LstPrice(p, b)) == cum;
    assert LstPrice(p, b) > 0.0;
  }

  /** Without a cadence and with the deviation test never met, the looped leg is held:
      no spot trade, no spot fee, the hedge follows `{lst}_ex` on the opening units, and
      the buffer is the running sum of the hedge and funding P&L. */
  lemma {:induction false} HoldWithoutTrigger(pol: Policy, p: Params, bars: seq<Bar>, rows: seq<Row>, t: nat)
    requires Consistent(pol, p, bars, rows) && t < |rows|
    requires p.rebalanceHours.None?
    requires forall s :: 1 <= s <= t && s < |rows| ==>
               !ShouldRebalance(pol, p, rows[s].capitalDev, rows[s].positionDev, rows[s - 1].cumPnl + rows[s].freePnl, false)
    ensures rows[t].countLoop == rows[0].countLoop
    ensures t >= 1 ==> rows[t].diffLst == 0.0 && rows[t].lstFees == 0.0
    ensures rows[t].countHedge == HedgeUnits(p, rows[0].countLoop, bars[t])
    ensures rows[t].cumPnl == FreeSum(rows, t)
  {
    HedgeRederived(pol, p, bars, rows, t);
    if t > 0 {
      HoldWithoutTrigger(pol, p, bars, rows, t - 1);
      FactsAt(pol, p, bars, rows, t);
      assert !TimeTrigger(p, bars[t].hour);
    }
  }

  /** The default policy converts the whole pre-fee P&L of a cadence step, so the looped
      leg grows by the spot, hedge and funding P&L of that step before fees. */
  lemma TimeOnlyConvertsPreFeePnl(pol: Policy, p: Params, bars: seq<Bar>, rows: seq<Row>, t: nat)
    requires Consistent(pol, p, bars, rows) && 1 <= t < |rows| && pol.TimeOnly?
    ensures TimeTrigger(p, bars[t].hour) ==>
              Cash(rows[t].diffLst, LstPrice(p, bars[t])) == rows[t].lstPnl + rows[t].hedgePnl + rows[t].fundPnl
    ensures !TimeTrigger(p, bars[t].hour) ==> rows[t].countLoop == rows[t - 1].countLoop
    ensures rows[t].cumPnl == FreeSum(rows, t)
  {
    FactsAt(pol, p, bars, rows, t);
    TimeOnlyBuffer(pol, p, bars, rows, t);
  }

  /** The default policy never resets the buffer. */
  lemma {:induction false} TimeOnlyBuffer(pol: Policy, p: Params, bars: seq<Bar>, rows: seq<Row>, t: nat)
    requires Consistent(pol, p, bars, rows) && t < |rows| && pol.TimeOnly?
    ensures rows[t].cumPnl == FreeSum(rows, t)
  {
    if t > 0 {
      TimeOnlyBuffer(pol, p, bars, rows, t - 1);
      FactsAt(pol, p, bars, rows, t);
    }
  }

  /** `strategy_cumret` is capital over the first capital and `leverage` is closing LST
      cash over capital; on row 0 the leverage is the deployed fraction. */
  lemma Ratios(pol: Policy, p: Params, bars: seq<Bar>, rows: seq<Row>, t: nat)
    requires Consistent(pol, p, bars, rows) && t < |rows|
    ensures rows[t].capital != 0.0 && rows[0].capital == p.initCapital
    ensures rows[t].strategyCumret == rows[t].capital / rows[0].capital
    ensures t >= 1 ==> rows[t].leverage == rows[t].lstCashEnd / rows[t].capital
    ensures rows[0].leverage == rows[0].lstCash / rows[0].capital == 0.8 + 0.2 * p.lstCollateral
  {
    var c, d := p.initCapital, Deployed(p);
    assert InitFacts(p, bars[0], rows[0]);
    assert rows[0].lstCash == c * d && rows[0].capital == c && c != 0.0;
    DivCancel(c, d);
    DivCancel(c, 1.0);
    if t > 0 {
      FactsAt(pol, p, bars, rows, t);
    }
  }

  lemma DivCancel(c: real, d: real)
    requires c != 0.0
    ensures (c * d) / c == d
  {
    var x := (c * d) / c;
    assert x * c == c * d;
    assert (x - d) * c == 0.0;
  }

  /** Without cross-token scaling the closing notionals of the two legs are equal; the
      closing LST cash uses the first bar's cross factor, so with scaling they can differ. */
  lemma EndLegsBalanced(pol: Policy, p: Params, bars: seq<Bar>, rows: seq<Row>, t: nat)
    requires Consistent(pol, p, bars, rows) && 1 <= t < |rows| && p.crossEx == 0.0
    ensures rows[t].lstCashEnd == rows[t].hedgeCashEnd
  {
    FactsAt(pol, p, bars, rows, t);
  }

  /** All bars of a prefix carry positive prices. */
  lemma PrefixPositive(bars: seq<Bar>, k: nat)
    requires PricesPositive(bars) && k <= |bars|
    ensures PricesPositive(bars[..k])
  {
    forall i | 0 <= i < k
      ensures bars[..k][i].lst > 0.0 && bars[..k][i].hedge > 0.0
    {
      assert bars[..k][i] == bars[i];
    }
  }

  /** Causality of the continued run: continuing `rows` over the first k bars gives the
      first k rows of the continuation over all bars. */
  lemma {:induction false} RunFromPrefix(pol: Policy, p: Params, bars: seq<Bar>, k: nat, rows: seq<Row>)
    requires PricesPositive(bars) && 1 <= |rows| <= k <= |bars|
    requires p.initCapital != 0.0 && rows[|rows| - 1].capital != 0.0
    requires RunFrom(pol, p, bars, rows).Ok?
    ensures PricesPositive(bars[..k])
    ensures RunFrom(pol, p, bars[..k], rows) == Ok(RunFrom(pol, p, bars, rows).value[..k])
    decreases k - |rows|
  {
    PrefixPositive(bars, k);
    var t := |rows|;
    if t < k {
      assert bars[..k][0] == bars[0] && bars[..k][t - 1] == bars[t - 1] && bars[..k][t] == bars[t];
      var next := Step(pol, p, bars[0], bars[t - 1], bars[t], rows[t - 1], t);
      RunFromPrefix(pol, p, bars, k, rows + [next.value]);
    }
  }

  /** Causality: running the backtest on the first k bars gives the first k rows of
      the full run, so no row depends on a later bar. */
  lemma SimulatePrefix(pol: Policy, p: Params, bars: seq<Bar>, k: nat)
    requires PricesPositive(bars) && 1 <= k <= |bars| && Simulate(pol, p, bars).Ok?
    ensures PricesPositive(bars[..k])
    ensures Simulate(pol, p, bars[..k]) == Ok(Simulate(pol, p, bars).value[..k])
  {
    PrefixPositive(bars, k);
    assert bars[..k][0] == bars[0];
    RunFromPrefix(pol, p, bars, k, [Init(p, bars[0]).value]);
  }

  /** With a positive starting capital, a step under `cap_dev` equals the step under
      `cap_dev_only_buy`. */
  lemma StepCapDevAgree(p: Params, b0: Bar, pb: Bar, b: Bar, prev: Row, t: nat)
    requires b.lst > 0.0 && b.hedge > 0.0 && p.initCapital > 0.0 && prev.capital != 0.0
    ensures Step(CapDev, p, b0, pb, b, prev, t) == Step(CapDevOnlyBuy, p, b0, pb, b, prev, t)
  {
    var cum := prev.cumPnl + (HedgePnl(pb, b, prev) + FundPnl(p, pb, b, prev));
    var hedgeCash := Cash(prev.countHedge, b.hedge);
    if hedgeCash != 0.0 {
      CapDevVariantsAgree(p, b, Cash(prev.countLoop, LstPrice(p, b)) / hedgeCash - 1.0, cum,
                          LstPnl(p, pb, b, prev) + HedgePnl(pb, b, prev) + FundPnl(p, pb, b, prev), TimeTrigger(p, b.hour));
    }
  }

  /** The two capital-deviation policies continue any prefix identically. */
  lemma {:induction false} RunFromCapDevAgree(p: Params, bars: seq<Bar>, rows: seq<Row>)
    requires PricesPositive(bars) && 1 <= |rows| <= |bars|
    requires p.initCapital > 0.0 && rows[|rows| - 1].capital != 0.0
    ensures RunFrom(CapDev, p, bars, rows) == RunFrom(CapDevOnlyBuy, p, bars, rows)
    decreases |bars| - |rows|
  {
    var t := |rows|;
    if t < |bars| {
      StepCapDevAgree(p, bars[0], bars[t - 1], bars[t], rows[t - 1], t);
      var next := Step(CapDev, p, bars[0], bars[t - 1], bars[t], rows[t - 1], t);
      if next.Ok? {
        RunFromCapDevAgree(p, bars, rows + [next.value]);
      }
    }
  }

  /** With a positive starting capital, `cap_dev` and `cap_dev_only_buy` produce the same
      table: a positive buffer means a positive `capital_dev`, so the one-sided test
      agrees with the two-sided one wherever the buffer can be traded. */
  lemma CapDevVariantsCoincide(p: Params, bars: seq<Bar>)
    requires PricesPositive(bars) && p.initCapital > 0.0
    ensures Simulate(CapDev, p, bars) == Simulate(CapDevOnlyBuy, p, bars)
  {
    if |bars| > 0 && Init(p, bars[0]).Ok? {
      RunFromCapDevAgree(p, bars, [Init(p, bars[0]).value]);
    }
  }

  /** A two-bar scenario: LST 100 -> 110, hedge 50 -> 52 (return 0.04), funding 0.0001,
      capital 1000, collateral 1, deviation 0.05, `cap_dev`, no fees and no cadence. */
  const ScenarioParams := Params(0.05, 1000.0, 0.0, 0.0, 1.0, None, 0, 0.0)
  const ScenarioBar0 := Bar(100.0, 50.0, 0.0, 0.0, 0.0, 0)
  const ScenarioBar1 := Bar(110.0, 52.0, 0.04, 0.0001, 0.0, 1)

  /** The opening position of the scenario: 10 LST units against 20 hedge units. */
  lemma ScenarioOpen()
    ensures Init(ScenarioParams, ScenarioBar0).Ok?
    ensures var r := Init(ScenarioParams, ScenarioBar0).value;
            r.countLoop == 10.0 && r.countHedge == 20.0 && r.cumPnl == 0.0 && r.capital == 1000.0
  {
    var p, b := ScenarioParams, ScenarioBar0;
    assert Deployed(p) == 1.0 && Scale(p, b) == 1.0;
    assert HedgeW * (Deployed(p) / HedgeW) == 1.0;
    assert p.initCapital * Deployed(p) / Scale(p, b) / b.lst == 10.0;
    assert p.initCapital * (HedgeW * (Deployed(p) / HedgeW)) / b.hedge == 20.0;
  }

  /** Step 1 of the scenario earns 100 on the LST leg, loses 40 on the hedge and earns 0.1
      of funding; the buffer drift stays below the threshold, so nothing is traded and
      capital closes at 1060.1. */
  lemma ScenarioStep(prev: Row)
    requires prev.countLoop == 10.0 && prev.countHedge == 20.0 && prev.cumPnl == 0.0 && prev.capital == 1000.0
    ensures Step(CapDev, ScenarioParams, ScenarioBar0, ScenarioBar0, ScenarioBar1, prev, 1).Ok?
    ensures var r := Step(CapDev, ScenarioParams, ScenarioBar0, ScenarioBar0, ScenarioBar1, prev, 1).value;
            r.lstPnl == 100.0 && r.hedgePnl == -40.0 && r.fundPnl == 0.1
            && r.diffLst == 0.0 && r.countLoop == 10.0 && r.cumPnl == -39.9 && r.capital == 1060.1
  {
    var p, b := ScenarioParams, ScenarioBar1;
    assert Deployed(p) == 1.0 && Scale(p, b) == 1.0 && FundRet(p, b) == 0.0001;
    assert LstPrice(p, b) == 110.0 && LstPrice(p, ScenarioBar0) == 100.0;
    assert !TimeTrigger(p, b.hour);
  }
}
