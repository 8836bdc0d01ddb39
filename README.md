# Continuous fee minting simulation — a Dafny model

`cfm.py` simulates a fund that charges its management fee by minting new
shares continuously rather than deducting the fee once per fee period.
On every tick the clock advances by a jittered wait. A tick that crosses a
fee-period boundary is snapped back to the exact start of the new period.
The drift-scaled time since the last committed tick sets how many shares to
mint, unless the network fees paid so far would push the fee rate per day
above a tolerance. A throttled tick mints nothing. Its elapsed time rolls
into the next delta, unless it is a boundary tick, which is committed anyway.
After every tick the share price, the earnings and the tracked customer's
value are recomputed. A boundary tick also reports a period summary and
resets the per-period counters.

The model has three modules:

- `CfmConfig` (`config.dfy`) — the argument validators `percentage` and
  `positive_int`; the derived configuration (inflation rate, fee period in
  seconds); the check that the jitter bound does not exceed the mint period;
  and the jittered wait.
- `CfmTick` (`tick.dfy`) — the simulation state as a value, and one loop
  iteration as the pure transition `Tick`. `Tick` is composed of the clock
  step (`AdvanceClock`, built on `Snap`), the mint and throttle decision
  (`Admit`, built on `CandidateMint` and `Throttle`), and dilution plus
  reporting (`Settle`). The lemmas state what every tick guarantees.
- `CfmEngine` (`engine.dfy`) — the loop as the specification `Simulate`.
  The class `Engine` holds the loop variables as fields: `Step` runs one
  iteration in place and `Run` runs the `while` loop. Both are proved to
  agree with `Tick` and `Simulate`. `RunProgram` is the whole script, from
  options to records.

Times, shares and money are Dafny `real`s. `int(t / P)` is the floor, which
is exact because the clock is never negative. The random draw is an input in
[-1, 1). `pow(inflation_rate, x)` is an abstract parameter `growth`, of which
only the laws in `PowLaw` are assumed: `growth(0) = 1`,
`growth(1) = inflation_rate`, positive everywhere, and at least 1 on
non-negative exponents.

### Behaviour as the code has it

- **Boundary ticks are throttled.** On a boundary tick the throttle runs as
  on any other tick. A throttled boundary tick mints nothing and pays
  nothing. It is still committed, so the time since the last committed
  clock is never minted for (`ThrottledBoundaryTick`). The same holds with
  zero tolerance: every tick after the bootstrap is skipped, boundary ticks
  included (`ZeroToleranceSkipsAll`).
- **A jitter bound equal to the mint period is accepted.** The check rejects
  only `noise > mint`. A draw of -1 then gives a wait of exactly zero
  (`NoiseCheckExact`, `ZeroWaitAccepted`). A zero wait on the bootstrap tick
  commits clock 0 again, so the next tick is another bootstrap tick.
- **A fee of 1.0 passes `percentage`.** The inflation rate `1 / (1 - fee)`
  then divides by zero (cfm.py:75). `Configure` returns `FeeDivisionByZero`
  for it.
- **The snap moves the clock back.** A boundary tick's clock is the start of
  the proposed clock's period, which is never after the proposed clock
  (`Snap`, `TickBoundary`).
- **The model proves that shares never decrease only under a drift of at
  least -1.** The drift is any float. Below -1 the drift-scaled delta of a
  tick with positive elapsed time is negative. With a fee above 0 the
  inflation rate exceeds 1, and a minting tick then mints a negative
  amount. Shares can still stay constant at any drift, for instance with
  a fee of 0 or on skipped ticks. Every monotonicity result about shares
  is therefore conditional on `drift >= -1`.
- **A run has at most one crossing summary per fee period,** each for a
  later period than the last (`SimulateCrossingsOrdered`). When the
  longest wait, mint + noise, is no longer than the fee period (as with the
  defaults), every period the clock enters gets exactly one
  (`EveryPeriodCrossed`). Otherwise a period can pass with no summary: the
  mint period is any positive integer, so a single wait can exceed the fee
  period.
- **The bootstrap tick leaves `mint` as it was.** `mint` is therefore part
  of the state. The invariant `lastTimestamp == 0 ==> mint == 0` is what
  makes the bootstrap tick add no shares.

## Model

| member | source | states |
|---|---|---|
| CfmConfig.Percentage | cfm.py:21-25 | accepts exactly the values in [0, 1], returned unchanged; any other value is rejected with that value |
| CfmConfig.PositiveInt | cfm.py:28-32 | accepts exactly the integers above 0, returned unchanged; every value <= 0 is rejected with that value |
| CfmConfig.Configure | cfm.py:74-84 | succeeds exactly when the fee is in [0, 1), period, mint and noise are positive and noise <= mint; the configuration carries the fee, the period in seconds (days * 86400), the mint period, the noise, the drift and the tolerance, and an inflation rate equal to 1/(1 - fee), with rate * (1 - fee) = 1 and rate >= 1; the errors, in order: an out-of-range fee yields PercentOutOfRange, then a non-positive period, mint or noise yields NotPositive with that value, then a fee of 1.0 yields FeeDivisionByZero |
| CfmConfig.InflationRateAtLeastOne | cfm.py:75 | for a fee in [0, 1) the rate 1/(1 - fee) undoes the fee exactly and is at least 1 |
| CfmConfig.NoiseCheckExact | cfm.py:83-84 | with each option valid on its own, the configuration is rejected if and only if noise > mint, and the error is NoiseExceedsMint |
| CfmConfig.Wait | cfm.py:116-117 | for a draw in [-1, 1) and positive noise, the wait lies in [mint - noise, mint + noise) |
| CfmConfig.WaitNonNegativeIff | cfm.py:116-118 | every possible wait is non-negative if and only if noise <= mint, the condition the configuration check enforces |
| CfmConfig.ZeroWaitAccepted | cfm.py:83-84 | noise equal to the mint period is accepted, and the draw -1 then gives a wait of exactly 0 |
| CfmTick.TxFeeValue | cfm.py:44-46 | the fee of one mint transaction, 0.0001 XLM per stroop * 0.45 USD per XLM * 100 stroops (line 149), is 0.0045 USD |
| CfmTick.Init | cfm.py:103-111 | the initial loop variables: 1000 shares, clocks, earnings, fees and mint at 0, counters at 0; `SimulateFromStart` proves it satisfies the invariant |
| CfmTick.Horizon | cfm.py:113 | the loop bound, the fee period times the 10 simulated periods; `Simulate` and `SimulateHorizon` state the guard against it |
| CfmTick.PeriodOf | cfm.py:122-123 | the fee-period index `int(t / P)` as the floor of t / P; `FloorBounds` states k*P <= t < (k+1)*P |
| CfmTick.Inv | cfm.py:113-189 | the loop invariant: valid configuration, 0 <= last commit <= clock, clock and last commit in the same period, positive shares, non-negative fees, and at the bootstrap a zero clock and mint; `Tick` and `Simulate` preserve it |
| CfmTick.Delta | cfm.py:129-130 | the time since the last committed clock scaled by 1 + drift; `Engine.ScaledDelta` is proved to compute it and `TickThrottle` reports it |
| CfmTick.Slice | cfm.py:143 | the drift-scaled delta as a fraction of the fee period, the exponent of the growth factor; `TickOutcome` states the shares grow by growth(delta / P) |
| CfmTick.Settle | cfm.py:164-189 | dilution, price, earnings, customer value, the summary with ideal and error, the counter reset and the commit rule of one tick; `TickCommit`, `SettleValuation` and `TickValuation` state its properties and `Engine.Settle` is proved to compute it |
| CfmTick.Pow | cfm.py:179 | a power of a base in [0, 1] stays in [0, 1] |
| CfmTick.Ideal | cfm.py:179 | the ideal customer value after k discrete fee charges lies between 0 and the initial customer value |
| CfmTick.IdealStep | cfm.py:179 | the ideal starts at 100,000 USD and each further period multiplies it by (1 - fee); with a 2% fee it is 98,000 after one period |
| CfmTick.FloorBounds | cfm.py:122-123 | the period index k of a clock t satisfies k*P <= t < (k+1)*P |
| CfmTick.MultipleOfPeriod | cfm.py:125 | the snapped clock k*P lies in period k |
| CfmTick.PeriodMonotone | cfm.py:122-124 | a later clock is never in an earlier fee period |
| CfmTick.PeriodBelow | cfm.py:122-124 | a clock before the start of period k lies in a period before k |
| CfmTick.BelowLaterPeriod | cfm.py:122-125 | a clock lies before the start of every period later than its own |
| CfmTick.Snap | cfm.py:121-126 | a boundary is detected exactly when the proposed clock's period is later than the last committed clock's; the clock is then snapped to that period's start, which is after the last commit, not after the proposed clock, an exact multiple of the period, and in the same period; otherwise the clock is unchanged and in the last commit's period |
| CfmTick.SnapNotBefore | cfm.py:121-126 | the snap never moves the clock before the current clock |
| CfmTick.Throttle | cfm.py:149-155 | the tick is throttled exactly when the projected rate exceeds the tolerance; with non-negative fees paid the rate is positive |
| CfmTick.ThrottleRate | cfm.py:149-151 | the projected rate times the elapsed seconds is the fees paid plus this tick's fee, times 86400 |
| CfmTick.CandidateMint | cfm.py:143-145 | minting the candidate grows the share count by exactly the growth factor and keeps it positive; with a factor of at least 1 the candidate is not negative |
| CfmTick.Proposed | cfm.py:116-118 | the proposed clock is never before the current clock |
| CfmTick.AdvanceClock | cfm.py:116-126 | the clock step: the proposed clock and the reported period, which is the period of both the proposed and the final clock; the clock never goes back, nor before the last commit; it crosses exactly when the period is later than the last commit's, and then it sits at the exact start of that period, after the last commit and not after the proposed clock; otherwise it is the proposed clock |
| CfmTick.Admit | cfm.py:129-162 | the bootstrap tick keeps mint, fees and counters and is not throttled; any later tick has a positive clock; the shares after minting stay positive |
| CfmTick.AdmitLater | cfm.py:140-162 | after the bootstrap tick, the clock is positive and the growth factor positive; a throttled tick mints 0, pays nothing and counts a skip; otherwise it mints the candidate, pays one fee and counts a mint |
| CfmTick.AdmitNonDecreasing | cfm.py:140-162 | with drift >= -1 the admitted mint is never negative and the fees never drop |
| CfmTick.Tick | cfm.py:113-189 | one loop iteration preserves the loop invariant (clock order, same period for clock and last commit, positive shares, non-negative fees) |
| CfmTick.TickClockMonotone | cfm.py:116-126 | the clock and the last committed clock never decrease, and the record carries the new clock |
| CfmTick.TickBoundary | cfm.py:121-138 | a tick whose proposed clock is in a later period than the last commit is snapped to that period's start, is a new period and is committed; any other tick keeps its proposed clock and is a new period only when it bootstraps |
| CfmTick.TickBootstrap | cfm.py:134-138 | the bootstrap tick is a new period, is not throttled, mints nothing, leaves shares and fees unchanged, reports a summary at time 0 with the counts as they were, and is committed |
| CfmTick.TickThrottle | cfm.py:148-155 | after the bootstrap tick the clock is positive; the tick is skipped exactly when (fees + fee) / days > tolerance, and reports that rate and the drift-scaled delta |
| CfmTick.TickOutcome | cfm.py:153-162 | a skipped tick mints 0, keeps shares and fees, and counts one more skip; a minting tick multiplies the shares by growth(delta/P), pays exactly one fee and counts one more mint |
| CfmTick.TickCommit | cfm.py:177-189 | the last committed clock moves to the new clock exactly when the tick minted or started a period; a summary comes exactly with a new period, which leaves both counters 0; otherwise the counters grow by one in total |
| CfmTick.TickValuation | cfm.py:164-180 | the shares grow by the mint; price times shares equals the fund value; customer value and earnings follow from the price; a summary's ideal is for the proposed clock's period and its error is the distance from that ideal |
| CfmTick.SettleValuation | cfm.py:164-180 | the same valuation facts for any clock step and admission that keep the shares positive |
| CfmTick.TickNonDecreasing | cfm.py:129-165 | with drift >= -1 a tick mints a non-negative amount, so shares and fees never decrease |
| CfmTick.TickMonotone | cfm.py:113-189 | clock, last commit and fees never decrease over a tick; with drift >= -1 neither do the shares |
| CfmTick.TickPeriodAdvance | cfm.py:121-126 | a tick never moves the clock into an earlier period; a summary is for the period of its tick's clock; a crossing summary is for a later period than the tick's start |
| CfmTick.TickAtMostOnePeriod | cfm.py:116-126 | when mint + noise <= the fee period, a tick moves the clock on by at most one period, and a tick that enters the next period reports that period's crossing summary |
| CfmTick.TickReport | cfm.py:164-186 | the record carries the new fees and the drift-scaled delta, a summary carries the new earnings, a crossing summary is shown at the tick's clock, and the bootstrap tick reports a fee rate of 0 |
| CfmTick.ThrottledBoundaryTick | cfm.py:121-189 | a boundary tick whose projected rate at the period start exceeds the tolerance is a new period and skipped, mints and pays nothing, and is still committed past the old commit |
| CfmTick.ZeroToleranceSkipsAll | cfm.py:153-157 | with tolerance <= 0 every tick after the bootstrap is skipped, mints and pays nothing, and is committed only on a boundary |
| CfmEngine.Simulate | cfm.py:113-189 | the loop keeps the invariant; it gives at most one record per draw and stops before the draws run out only once the clock is past the horizon |
| CfmEngine.SimulateHorizon | cfm.py:113 | the other side of the loop guard: a run starting past the horizon yields no record, a run that yields records starts within it, and every record but the last has a clock within the horizon |
| CfmEngine.SimulateUnfold | cfm.py:113 | a run that has not stopped is its first tick followed by the run from that tick's state |
| CfmEngine.SimulateStep | cfm.py:113 | the same unfolding for a tick already taken |
| CfmEngine.SimulateMonotone | cfm.py:113-189 | over a whole run clock, last commit and fees never decrease; with drift >= -1 neither do the shares |
| CfmEngine.SimulateTimesOrdered | cfm.py:113-189 | the records' clocks are in order and lie between the run's start and end clocks |
| CfmEngine.SimulateCrossingsOrdered | cfm.py:113-189 | every summary is for its tick's period; each crossing summary is for a later period than every earlier tick and than the start; two crossing summaries are never for the same period |
| CfmEngine.EveryPeriodCrossed | cfm.py:113-126 | when mint + noise <= the fee period, every period after the start period up to the final clock's period has a crossing summary in the run |
| CfmEngine.SimulateFromStart | cfm.py:103-189 | from the initial state the first record is the bootstrap tick, with no mint, the initial shares and a summary with no mints; with drift >= -1 the shares never drop below the initial 1000 |
| CfmEngine.Engine.constructor | cfm.py:103-111 | the loop variables start as the initial state |
| CfmEngine.Engine.Step | cfm.py:116-189 | one iteration in place leaves the fields and the record equal to Tick of the old fields |
| CfmEngine.Engine.AdvanceTime | cfm.py:116-126 | the in-place wait and snap: the clock, boundary flag and period that AdvanceClock gives |
| CfmEngine.Engine.ScaledDelta | cfm.py:129-130 | the time since the last committed clock, scaled by the drift, is the delta the tick specification uses (Delta) |
| CfmEngine.Engine.MintOrSkip | cfm.py:140-162 | the in-place mint and throttle leave mint, fees and counters as Admit gives them |
| CfmEngine.Engine.Settle | cfm.py:164-189 | the in-place dilution, summary, reset and commit leave state and record as the Settle function gives them |
| CfmEngine.Engine.Run | cfm.py:113-189 | the while loop leaves the fields and the records equal to Simulate from the old fields |
| CfmEngine.RunProgram | cfm.py:74-189 | the program runs exactly when the options are accepted, and then yields the records of Simulate from the initial state; otherwise it yields Configure's error |

## Left out

- Argument parsing, `--verbose` and the logging setup (cfm.py:35-36, 59-72, 86-99) are configuration plumbing. The model takes the options as numbers (`Args`) and keeps only the validators' accept and reject rules.
- The per-tick log line and the summary line (cfm.py:170-175, 181-186), with `pretty_time` and `pretty_delta` (cfm.py:11-18), are formatting through `time` and `datetime`. They are not modelled. A summary is kept as a record of its numbers, without the `[START]` marker.
- `random.random()` (cfm.py:116) is not modelled: each draw is an input in [-1, 1).
- `Simulate`: the draws form a finite sequence, and the model's loop also stops when they run out. With enough draws it stops exactly where the program does: it runs a tick exactly when the clock is within the horizon (`Simulate`, `SimulateHorizon`).
- `pow(inflation_rate, period_slice)` (cfm.py:144) is the parameter `growth`, constrained only by `PowLaw`. Because real exponentiation is not modelled, the telescoping claim is not proved: the growth factors over one full period multiply to the inflation rate. For the same reason, the claim that the customer value tracks the ideal is not proved either.
- Floating-point rounding is not modelled; all arithmetic is exact over the reals.
- `Configure`: argparse converts options in command-line order and exits through `parser.error`. The model validates fee, period, mint and noise in declaration order and returns the first failure as a value. The noise check at cfm.py:84 raises an uncaught exception, which the model also returns as an error value.
- `Percentage` and `PositiveInt` take numbers, not strings. The text conversions `float(x)` and `int(x)` and their `ValueError`s are not modelled. Neither are the special floats: `float(x)` accepts "nan", which `percentage` returns because both of its comparisons are false (cfm.py:22-25). The options `--drift` and `--tolerance` (cfm.py:65-66) likewise accept nan and infinity, and a NaN tolerance never throttles (cfm.py:154). Over the reals the model has no such values.
