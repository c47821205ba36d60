# Looped-LST backtest engine, modelled in Dafny

This project models `run_strategy`, the engine of a backtester. It simulates a looped
liquid-staking (LST) position hedged with a short perpetual future, one hourly bar at a
time. The model covers:

- The initialiser (row 0). It puts `init_capital * (lst_w + (1 - lst_w) * lst_collateral)`
  into each leg, sets the opening leverage and charges the one-off bootstrap fees.
- The per-step recurrence (rows 1..N-1), which:
  - marks the previous position to the current prices;
  - accumulates the hedge-plus-funding buffer `cum_pnl`;
  - computes the two drift metrics `capital_dev` and `position_dev`;
  - asks one of five rebalance policies (`cap_dev`, `cap_dev_only_buy`, `pos_dev`,
    `pos_dev_only_buy` and the default time-only branch, with its optional hour-of-day
    cadence) how many LST units to buy or, in the default branch, to sell;
  - re-derives the hedge from the looped leg;
  - charges absolute-value fees and updates capital.

Files and modules:

- `inputs.dfy` (module `Inputs`): the bar, the run parameters and the policy tag. It also
  has the price conversions: the cross-token factor `max(1, cross_ex * cross)`, the
  `{lst}_ex` ratio, and the conversions between LST units, hedge units and cash.
- `policy.dfy` (module `Rebalance`): the cadence mask, each policy's trigger, and the
  trade each policy makes, as one dispatch over the tag.
- `engine.dfy` (module `Engine`):
  - the output row and the fault cases;
  - the pure specification: `Init`, `Step`, and the fold `RunFrom`/`Simulate`;
  - the invariants each row satisfies (`InitFacts`, `StepFacts`, `Consistent`);
  - the imperative program. `RunStrategy` fills an `array<Row>` in a loop. Each pass is
    `StepRow`, which overwrites `cum_pnl` and `total_pnl` within the step as the program
    does. The rebalance branch is `Trade`.
- `properties.dfy` (module `Properties`): run-level properties of the table. These include:
  - capital continuity;
  - hedge re-derivation;
  - fees;
  - the step function `count_loop`;
  - the buffer;
  - the buy-only variants;
  - holding when no trigger fires;
  - the output ratios;
  - causality of the recurrence;
  - the coincidence of the two capital-deviation policies;
  - a small two-bar scenario.

All quantities are `real`.

Division by zero cannot be silent over the reals, so each one becomes an explicit fault:

- A zero hedge cash value divides `position_dev` (line 103). It gives
  `ZeroHedgeCash(t)`. The program itself carries on from there (see "## Left out").
- A zero capital divides leverage and returns (lines 164-166). It gives `ZeroCapital(t)`.
- A zero initial capital gives `ZeroCapital(0)`.
- An empty input table gives `NoValidRow`. The program fails there too: row 0 does not
  exist (line 67).

Without a fault, prices are the only precondition: they must be positive.

Behaviour of the program that the model keeps as written:

- Without a trigger, hedge fees are still charged. The hedge is re-derived from `{lst}_ex`
  at every bar, so it trades whenever that ratio moves (`Properties.StepFees`).
- The spot fee is priced with the cross-token factor `max(1, cross_ex * cross)`, not with
  the collateral factor.
- An unrecognised policy tag is not rejected: it runs the default time-only branch
  (line 149). `Policy.TimeOnly` stands for every such tag.
- A negative initial capital is not rejected. Only a zero one is a fault, because zero is
  a divisor.
- The default branch sizes its trade from the pre-fee `total_pnl` and never touches
  `cum_pnl` (lines 98, 152, 160).
- `lst_cash_end` is valued with the first bar's cross factor (line 162).
- Row 0's capital is `init_capital` itself: the opening fees are recorded but not deducted.
- With a positive initial capital, `cap_dev` and `cap_dev_only_buy` produce the same table
  (`Properties.CapDevVariantsCoincide`). The buy-only clamp `if diff_lst < 0` (lines
  123-124 and 144-145) never fires, because prices are positive.
- The cadence is tested on the hour of the day (line 82), so it starts over at midnight.
  It fires every `rebalance_hours` hours only when that number divides 24. Otherwise two
  firings around midnight are closer together (`Rebalance.CadenceResetsAtMidnight`), and a
  cadence of a day or more fires once a day (`Rebalance.LongCadenceOncePerDay`).
- A zero `rebalance_hours` never fires. The pandas integer modulo by zero gives NaN, and
  NaN equals nothing. For any non-zero divisor, Python's `%` and Dafny's `%` agree on
  whether the remainder is zero.

## Model

| member | source | states |
|---|---|---|
| Inputs.Scale | backtester.py:31 | the cross factor `max(1, cross_ex*cross)` is at least 1, and exactly 1 when `cross_ex` is 0 |
| Inputs.DefaultParams | backtester.py:20-23 | with the defaults `lst_collateral=1`, `rebalance_hours=None`, `start_hour=0` and `cross_ex=0`, the whole capital is deployed, no cadence is configured and the cross factor is 1 at every bar |
| Inputs.LstPrice | backtester.py:93 | the cash price of one LST unit is never below the LST price |
| Inputs.EndPrice | backtester.py:162 | the closing LST price uses row 0's cross factor; it is the current LST price when `cross_ex` is 0 |
| Inputs.Ex | backtester.py:31 | `{lst}_ex` is positive, and that many hedge units are worth one LST unit |
| Inputs.HedgeUnits | backtester.py:156 | `count_loop * {lst}_ex` hedge units carry the same notional as the looped leg, and none for an empty leg |
| Inputs.Units | backtester.py:112 | `cash / max(1, cross_ex*cross) / lst` units are worth exactly `cash`, with the same sign as `cash` |
| Rebalance.TimeTrigger | backtester.py:80-86 | the cadence mask never fires without a configured cadence, and fires only for a non-zero one |
| Rebalance.TimeTriggerOnGrid | backtester.py:80-86 | every hour `start_hour + k*rebalance_hours` fires the cadence |
| Rebalance.TimeTriggerOnlyOnGrid | backtester.py:80-86 | only hours on that grid fire, and only with a non-zero cadence configured |
| Rebalance.TimeTriggerPeriodic | backtester.py:84 | the mask is periodic in the hour-of-day value with period `rebalance_hours`; it fires every `rebalance_hours` hours of wall-clock time only when that divides 24 |
| Rebalance.TimeTriggerDaily | backtester.py:82-84 | when the cadence divides 24, the hour `n` hours after hour `h`, which is `(h + n) % 24`, fires exactly when `h` does, across midnight as well |
| Rebalance.CadenceResetsAtMidnight | backtester.py:82-84 | with cadence 5 from hour 0, hour 20 fires and hour 0, four hours later, fires again; hours 21-23 do not, nor does hour 1, five hours after hour 20 |
| Rebalance.LongCadenceOncePerDay | backtester.py:82-84 | a cadence of 24 hours or more fires exactly at `start_hour` each day, so 48 fires every 24 hours |
| Rebalance.ShouldRebalance | backtester.py:106-150 | the five trigger tests (lines 109, 120, 130, 141, 150). The cadence fires a two-sided or the default policy, and a buy-only one on a positive buffer. A buy-only policy fires only on a positive buffer. The default policy fires exactly on its cadence. Off the cadence, drifts inside the band never fire. The drift tests themselves are stated by `Rebalance.DriftTriggers` |
| Rebalance.DriftTriggers | backtester.py:109-141 | `cap_dev` and `pos_dev` fire on a drift of either sign at or past `deviation` (lines 109, 130). `cap_dev_only_buy` and `pos_dev_only_buy` fire on a drift at or above it with a positive buffer. Their test is one-sided: off the cadence, a drift below `deviation`, however negative, never fires (lines 120, 141). The capital policies do not read `position_dev`, and the position policies do not read `capital_dev` |
| Rebalance.Decide | backtester.py:106-152 | the buy-only clamp at lines 123-124 and 144-145 is `Max0`. No trigger means no trade and an untouched buffer; a non-positive buffer is never traded by a buffer policy; buffer policies never sell and leave the buffer at 0 or untouched; the default branch never changes the buffer |
| Rebalance.DecideConverts | backtester.py:111-113 | a buffer policy firing on a positive buffer buys exactly the buffer's worth of LST and resets it to 0; the default branch on its cadence buys exactly the pre-fee step P&L's worth (line 152) |
| Rebalance.Consume | backtester.py:111-115 | a positive buffer is converted whole and reset to 0; otherwise nothing trades and the buffer carries forward |
| Rebalance.CapDevVariantsAgree | backtester.py:108-127 | with positive initial capital, `cap_dev` and `cap_dev_only_buy` make the same decision on the same inputs |
| Engine.Init | backtester.py:67-77 | row 0 exists exactly when initial capital is non-zero. It satisfies the opening facts: capital is `init_capital`; each leg holds `init_capital*deployed`; the hedge is re-derived; leverage is the deployed fraction; `strategy_cumret` is 1; the bootstrap fees are `init*spot*(1+max(0,cross_ex))` and `init*fut` |
| Engine.InitSizes | backtester.py:68-71 | the opening unit counts put `init_capital*deployed` cash into each leg, and the opening hedge equals `count_loop*{lst}_ex` |
| Engine.Fee | backtester.py:155 | a fee is never negative, and no traded units means no fee |
| Engine.FundRet | backtester.py:90 | `fund_ret` is the funding observation times the deployed fraction |
| Engine.Step | backtester.py:88-166 | a computed row never has zero capital; the step fails on a zero hedge cash value exactly when the previous hedge is worthless at the current hedge price; its only other fault is a zero capital |
| Engine.StepFaults | backtester.py:100-166 | a step fails with `ZeroCapital` exactly when its hedge cash is non-zero and the post-fee capital it reaches is zero (line 161). It succeeds exactly when neither divisor is zero, and the row then carries that capital |
| Engine.StepMarks | backtester.py:89-103 | P&L, cash and drift columns are the previous sizes marked at the current prices |
| Engine.StepTrade | backtester.py:106-154 | `count_loop` moves only by the traded units and only when a trigger fired; the buffer rules of each policy hold |
| Engine.StepResize | backtester.py:154-166 | hedge re-derivation, fee formulas, post-fee P&L, the capital update and the derived ratios of the new row |
| Engine.StepSound | backtester.py:88-166 | every computed row satisfies all the step facts |
| Engine.RunFrom | backtester.py:88-166 | continuing a prefix yields one row per bar and keeps the prefix unchanged; it fails only on the two arithmetic faults, at a row after the prefix |
| Engine.Simulate | backtester.py:67-166 | a run yields one row per bar. It fails with `NoValidRow` exactly when the input is empty, and with `ZeroCapital(0)` exactly when the initial capital is zero. Any other fault names a row of the table |
| Engine.Partial | backtester.py:88-166 | the rows computed before the run stops extend the prefix, and the last of them has non-zero capital |
| Engine.RunFromFailure | backtester.py:88-166 | a failing run names the row right after the computed ones, and continuing from them fails in the same way |
| Engine.RunFromComplete | backtester.py:88-166 | a successful run is exactly the rows computed |
| Engine.FaultCause | backtester.py:103-166 | a failing run stops at the step from the last computed row. That step fails with the run's fault, which names its zero divisor: the hedge cash (line 103) or the post-fee capital (lines 161-166) |
| Engine.PartialConsistent | backtester.py:88-166 | the rows computed before a failure satisfy the run invariants |
| Engine.SimulateFailure | backtester.py:67-166 | a backtest that fails past row 0 stops at the first step that cannot be computed, and the fault names that step's zero divisor |
| Engine.ComputedConsistent | backtester.py:67-166 | the rows a backtest computes before it stops form a consistent table, and a successful backtest is exactly those rows |
| Engine.RunFromConsistent | backtester.py:88-166 | continuing a consistent prefix gives a table in which every row satisfies the step facts |
| Engine.SimulateConsistent | backtester.py:67-166 | every successful run satisfies the opening facts at row 0 and the step facts at every later row |
| Engine.ExtendConsistent | backtester.py:88 | appending a row that satisfies the step facts keeps a prefix consistent |
| Engine.Trade | backtester.py:106-152 | the five branches, with their in-place overwrite of `cum_pnl` and the buy-only clamp, compute exactly the policy's decision |
| Engine.StepRow | backtester.py:89-166 | the loop body with `cum_pnl` and `total_pnl` overwritten within the step computes exactly one step of the recurrence |
| Engine.RunStrategy | backtester.py:7-168 | the loop filling the row array returns exactly the pure run: the same table, or the same fault |
| Properties.CapitalContinuity | backtester.py:98-161 | `capital[t]` is `init_capital` plus the sum of post-fee step P&L; that sum is gross P&L less fees; the fees paid never sum to a negative amount |
| Properties.HedgeRederived | backtester.py:156 | at every row, row 0 included, `count_hedge == count_loop * {lst}_ex`, so both legs carry equal notional |
| Properties.StepFees | backtester.py:155-159 | step fees are non-negative and add up to the total. Without a spot trade there is no spot fee, and the hedge moves only by the drift of `{lst}_ex` on the held units. With that ratio unchanged as well, the step is free |
| Properties.StepFeesOf | backtester.py:155-159 | the same fee facts for one step, given its resize facts and a re-derived previous hedge |
| Properties.HedgeDrift | backtester.py:156-157 | holding `u` LST units, the hedge moves by `u` times the change of `{lst}_ex` |
| Properties.LoopStepFunction | backtester.py:115-154 | `count_loop[t] == count_loop[t-1] + diff_lst[t]`, and a step without a trigger leaves `count_loop` unchanged |
| Properties.BufferTrades | backtester.py:101-148 | under a buffer policy, a trigger on a positive buffer converts the whole buffer and resets it to 0; otherwise nothing trades and the buffer carries forward |
| Properties.BufferPoliciesNeverSell | backtester.py:108-148 | under the four buffer policies `diff_lst` is never negative, so `count_loop` never falls below its previous or its opening value |
| Properties.BuyOnlyTrades | backtester.py:120-127 | a buy-only trade happens only on a positive buffer (the same at lines 141-148); it is worth the whole buffer, leaves it at 0 and is strictly positive |
| Properties.HoldWithoutTrigger | backtester.py:80-86 | with no cadence and no deviation trigger up to t, the looped leg is held and no spot fee is paid. The hedge is the opening units times the current `{lst}_ex`. The buffer is the running sum of hedge and funding P&L |
| Properties.TimeOnlyConvertsPreFeePnl | backtester.py:150-152 | on its cadence, the default branch buys the pre-fee spot, hedge and funding P&L's worth of LST; off it, nothing moves |
| Properties.TimeOnlyBuffer | backtester.py:101 | under the default branch, `cum_pnl[t]` is the running sum of `free_pnl` |
| Properties.Ratios | backtester.py:74 | `strategy_cumret[t] == capital[t]/capital[0]`; `leverage[t] == lst_cash_end[t]/capital[t]` for t ≥ 1 (lines 164-165); `leverage[0] == lst_cash[0]/capital[0] == 0.8 + 0.2*lst_collateral` |
| Properties.EndLegsBalanced | backtester.py:162-163 | without cross-token scaling, the closing notionals of the two legs are equal |
| Properties.RunFromPrefix | backtester.py:88-166 | continuing a prefix over the first k bars gives the first k rows of the continuation over all bars |
| Properties.SimulatePrefix | backtester.py:88-166 | causality: the backtest of the first k bars is the first k rows of the full backtest |
| Properties.StepCapDevAgree | backtester.py:108-127 | with positive initial capital, a step under `cap_dev` equals the step under `cap_dev_only_buy` |
| Properties.RunFromCapDevAgree | backtester.py:108-127 | the two capital-deviation policies continue any prefix identically |
| Properties.CapDevVariantsCoincide | backtester.py:108-127 | with positive initial capital, `cap_dev` and `cap_dev_only_buy` produce the same table or the same fault |
| Properties.ScenarioOpen | backtester.py:67-69 | capital 1000 at LST 100 and hedge 50 opens with 10 LST units against 20 hedge units |
| Properties.ScenarioStep | backtester.py:93-117 | in the scenario's first step (LST 110, hedge 52 with return 0.04, funding 0.0001), LST P&L is 100, hedge P&L is -40 and funding P&L is 0.1. `capital_dev` stays inside the 0.05 band, so nothing trades, the buffer is -39.9 and capital is 1060.1 |

## Left out

- pandas plumbing is not modelled: `data.copy()`, column creation, and the
  `first_valid_index` trimming (lines 26-30). The bar sequence is taken to start at the
  first valid row, and its prices are positive. A series with no valid observation is not
  modelled: there `first_valid_index()` is `None`, and the program runs on every row,
  NaN included.
- IEEE-754 rounding is not modelled, and neither is NaN or infinity propagation. All
  arithmetic is exact over `real`, and each division by zero is a fault (see above)
  rather than an infinity in the table.
- The hour comes from a `DatetimeIndex` in the program (line 82), and is the hour of the
  day, 0 to 23. Here it is an integer field `hour` of each bar. The cadence lemmas that
  speak of wall-clock time take it in that range.
- `rebalance_hours` and `start_hour` are integers here. Python also accepts a float
  cadence, such as 1.5, which the model does not cover.
- The diagnostic columns `loop_ret`, `hedge_ret`, `lst_ret`, `hedge_pnl_test` and
  `capital_diff` are not modelled. `capital_diff` is set to 0 once (line 36) and never
  updated. The others are computed at lines 89, 91, 92 and 96; `lst_ret` reads
  `loop_ret`, and no column that feeds the state reads any of them.
- Engine.Step: under every policy, a zero hedge cash stops the run with `ZeroHedgeCash`.
  Only `pos_dev` and `pos_dev_only_buy` read `position_dev`. Under `cap_dev`,
  `cap_dev_only_buy` and the default branch, the program only writes inf or NaN into that
  one column and carries on. Under the position policies, it compares that inf or NaN
  with `deviation` and carries on too. The model does not follow the run past that
  division.
- The constant columns `hedge_w` and `lst_w` are the constants `HedgeW` and `LstW`.
- Column names are not modelled. The program selects input columns by name; here the
  selected values are the fields of `Bar`, and the funding column is its `funding` field.
- Engine.RunStrategy returns the table as a sequence of rows indexed from 0. The
  program's table keeps the input's timestamp index, which the model does not carry.
- The policy tag is a five-case datatype. The program compares a string, and every
  unrecognised string behaves as `TimeOnly`.
- The analytics, plotting and dashboard modules are not part of this model. They
  compute float statistics and render charts and UI, and read Excel files.
