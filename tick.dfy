/** One iteration of the fee-minting loop (cfm.py, lines 113-189) as a pure
    transition on the simulation state, with the properties every tick keeps.
    The clock, shares and fees are reals; `pow(inflation_rate, slice)` is the
    parameter `growth`, of which only the laws in PowLaw are assumed. */
module CfmTick {
  import opened CfmConfig

  datatype Option<+T> = None | Some(value: T)

  // Constants of the simulation (cfm.py, lines 40-46).
  const FundValue: real := 4000000.0
  const InitShares: real := 1000.0
  const CustomerShares: real := 25.0
  const SimPeriods: int := 10
  const XlmPrice: real := 0.45
  const StroopPerTx: int := 100
  const StroopPerXlm: real := 0.0001

  /** The network fee charged for one mint transaction, in USD. */
  const TxFee: real := StroopPerXlm * XlmPrice * StroopPerTx as real

  /** One mint transaction costs 100 stroops at 0.0001 XLM each and
      0.45 USD per XLM. */
  lemma TxFeeValue()
    ensures TxFee == 0.0045
  {
  }

  /** The tracked customer's holding at the initial share price. */
  const InitCustomerValue: real := (FundValue / InitShares) * CustomerShares

  /** The loop variables of the simulation. `mint` is kept from tick to tick,
      as in the program: the bootstrap tick does not assign it. */
  datatype SimState = SimState(
    thisTimestamp: real,  // the simulated clock, in seconds
    lastTimestamp: real,  // the clock at the last committed tick
    fundShares: real,
    earnings: real,       // USD value of all minted shares when minted
    txFees: real,         // network fees paid so far, in USD
    numMints: nat,        // mints in the current fee period
    numSkips: nat,        // throttled ticks in the current fee period
    mint: real)           // shares minted by the latest tick

  /** The end-of-period report of a boundary tick, taken before the counters reset. */
  datatype Summary = Summary(displayTime: real, period: nat, numMints: nat, numSkips: nat,
                             ideal: real, err: real, earnings: real)

  /** What one tick reports. */
  datatype TickRecord = TickRecord(
    time: real, delta: real, mint: real, skipped: bool, newPeriod: bool,
    fundShares: real, fundPrice: real, customerValue: real, txFees: real,
    usdPerDay: real, summary: Option<Summary>)

  function Init(): SimState {
    SimState(0.0, 0.0, InitShares, 0.0, 0.0, 0, 0, 0.0)
  }

  /** The fee-period index of a clock value, `int(t / period)`; the clock is
      never negative, so truncation is the floor. */
  function PeriodOf(t: real, period: int): int
    requires period > 0
  {
    (t / period as real).Floor
  }

  /** `t` is an exact multiple of the fee period. */
  predicate Aligned(t: real, period: int)
    requires period > 0
  {
    PeriodOf(t, period) as real * period as real == t
  }

  /** The time at which the simulation loop stops. */
  function Horizon(c: Config): real {
    c.feePeriod as real * SimPeriods as real
  }

  /** The laws of `x => pow(base, x)` for base >= 1 that the model relies on. */
  ghost predicate PowLaw(base: real, growth: real -> real) {
    && growth(0.0) == 1.0
    && growth(1.0) == base
    && (forall x :: growth(x) > 0.0)
    && (forall x :: x >= 0.0 ==> growth(x) >= 1.0)
  }

  function Abs(x: real): real {
    if x < 0.0 then -x else x
  }

  /** `x` to the `n`-th power. */
  function Pow(x: real, n: nat): (r: real)
    ensures 0.0 <= x <= 1.0 ==> 0.0 <= r <= 1.0
  {
    if n == 0 then 1.0
    else
      var rest := Pow(x, n - 1);
      UnitProduct(x, rest);
      x * rest
  }

  lemma UnitProduct(a: real, b: real)
    ensures 0.0 <= a <= 1.0 && 0.0 <= b <= 1.0 ==> 0.0 <= a * b <= 1.0
  {
    if 0.0 <= a <= 1.0 && 0.0 <= b <= 1.0 {
      assert a * b <= 1.0 * b;
    }
  }

  /** The customer's value after `k` discrete fee charges. */
  function Ideal(c: Config, k: nat): (r: real)
    requires ValidConfig(c)
    ensures 0.0 <= r <= InitCustomerValue
  {
    var f := Pow(1.0 - c.mgmtFee, k);
    assert f * InitCustomerValue <= 1.0 * InitCustomerValue;
    InitCustomerValue * f
  }

  /** Each further fee period charges the fee once more on the ideal value;
      with a 2% fee the ideal after one period is 98% of the initial
      customer value of 100,000 USD. */
  lemma IdealStep(c: Config, k: nat)
    requires ValidConfig(c)
    ensures Ideal(c, 0) == InitCustomerValue == 100000.0
    ensures Ideal(c, k + 1) == Ideal(c, k) * (1.0 - c.mgmtFee)
    ensures c.mgmtFee == 0.02 ==> Ideal(c, 1) == 98000.0
  {
  }

  lemma FloorBounds(t: real, period: int)
    requires period > 0
    ensures PeriodOf(t, period) as real * period as real <= t
    ensures t < (PeriodOf(t, period) + 1) as real * period as real
  {
    var p := period as real;
    var q := t / p;
    var k := PeriodOf(t, period);
    var k1 := (k + 1) as real;
    assert k as real <= q < k1;
    assert q * p == t;
    assert k as real * p <= q * p;
    assert q * p < k1 * p;
    assert t < k1 * p;
    assert k1 * p == (PeriodOf(t, period) + 1) as real * period as real;
  }

  lemma MultipleOfPeriod(k: int, period: int)
    requires period > 0
    ensures PeriodOf(k as real * period as real, period) == k
  {
    var t := k as real * period as real;
    assert t / period as real == k as real;
    assert PeriodOf(t, period) == k;
  }

  /** The floor is monotone: a later clock is in the same or a later period. */
  lemma PeriodMonotone(a: real, b: real, period: int)
    requires period > 0 && a <= b
    ensures PeriodOf(a, period) <= PeriodOf(b, period)
  {
    var p := period as real;
    assert a / p <= b / p by {
      assert (b - a) / p >= 0.0;
      assert b / p - a / p == (b - a) / p;
    }
  }

  /** A clock below the start of period `k` lies in a period before `k`. */
  lemma PeriodBelow(t: real, k: int, period: int)
    requires period > 0 && t < k as real * period as real
    ensures PeriodOf(t, period) < k
  {
    FloorBounds(t, period);
  }

  /** The boundary check (cfm.py, lines 121-126): the proposed clock `t` is
      snapped back to the start of its fee period when that period is later
      than the one of the last committed clock. */
  function Snap(t: real, last: real, period: int): (res: (real, bool))
    requires period > 0 && 0.0 <= last <= t
    ensures res.1 <==> PeriodOf(t, period) > PeriodOf(last, period)
    ensures res.1 ==> res.0 == PeriodOf(t, period) as real * period as real
    ensures res.1 ==> last < res.0 <= t && Aligned(res.0, period)
    ensures res.1 ==> PeriodOf(res.0, period) == PeriodOf(t, period)
    ensures !res.1 ==> res.0 == t && PeriodOf(t, period) == PeriodOf(last, period)
  {
    var k := PeriodOf(t, period);
    if k > PeriodOf(last, period) then
      FloorBounds(t, period);
      BelowLaterPeriod(last, k, period);
      MultipleOfPeriod(k, period);
      (k as real * period as real, true)
    else
      PeriodMonotone(last, t, period);
      (t, false)
  }

  /** The throttle (cfm.py, lines 149-162): the projected fee rate in USD per
      elapsed day, and whether it exceeds the tolerance. */
  function Throttle(tolerance: real, txFees: real, t: real): (res: (bool, real))
    requires t > 0.0
    ensures res.0 <==> res.1 > tolerance
    ensures txFees >= 0.0 ==> res.1 > 0.0
  {
    var simDays := t / SecondsPerDay as real;
    var usdPerDay := (txFees + TxFee) / simDays;
    (usdPerDay > tolerance, usdPerDay)
  }

  /** The throttle's rate is the fees paid so far plus this tick's fee, per
      elapsed day of simulated time. */
  lemma ThrottleRate(tolerance: real, txFees: real, t: real)
    requires t > 0.0
    ensures Throttle(tolerance, txFees, t).1 * t == (txFees + TxFee) * SecondsPerDay as real
  {
    var d := t / SecondsPerDay as real;
    assert d * SecondsPerDay as real == t;
    assert ((txFees + TxFee) / d) * d == txFees + TxFee;
  }

  /** The continuous minting formula (cfm.py, line 145): the shares to mint so
      that the share count grows by the factor `g`. */
  function CandidateMint(shares: real, g: real): (m: real)
    requires shares > 0.0 && g > 0.0
    ensures shares + m == shares * g && shares + m > 0.0
    ensures g >= 1.0 ==> m >= 0.0
  {
    var m := shares * (g - 1.0);
    assert shares + m == shares * g;
    assert g >= 1.0 ==> m >= 0.0 * (g - 1.0);
    m
  }

  /** The loop invariant of the simulation. */
  predicate Inv(c: Config, s: SimState) {
    && ValidConfig(c)
    && 0.0 <= s.lastTimestamp <= s.thisTimestamp
    && PeriodOf(s.thisTimestamp, c.feePeriod) == PeriodOf(s.lastTimestamp, c.feePeriod)
    && s.fundShares > 0.0
    && s.txFees >= 0.0
    && (s.lastTimestamp == 0.0 ==> s.thisTimestamp == 0.0 && s.mint == 0.0)
  }

  /** A snapped clock is never before a clock `now` that lies in the same
      fee period as `last` and is not after the proposed clock. */
  lemma SnapNotBefore(t: real, last: real, now: real, period: int)
    requires period > 0 && 0.0 <= last <= now <= t
    requires PeriodOf(now, period) == PeriodOf(last, period)
    ensures Snap(t, last, period).0 >= now
  {
    var k := PeriodOf(t, period);
    if k > PeriodOf(last, period) {
      BelowLaterPeriod(now, k, period);
      assert Snap(t, last, period).0 == k as real * period as real;
    }
  }

  /** A clock lies before the start of every later period than its own. */
  lemma BelowLaterPeriod(t: real, k: int, period: int)
    requires period > 0 && PeriodOf(t, period) < k
    ensures t < k as real * period as real
  {
    FloorBounds(t, period);
    ScaleMonotone(PeriodOf(t, period) + 1, k, period as real);
  }

  lemma ScaleMonotone(a: int, b: int, p: real)
    requires a <= b && p > 0.0
    ensures a as real * p <= b as real * p
  {
    assert (b - a) as real * p >= 0.0;
    assert b as real * p - a as real * p == (b - a) as real * p;
  }

  /** The clock proposed by one tick, before the boundary check. */
  function Proposed(c: Config, s: SimState, r: real): (t: real)
    requires Inv(c, s) && -1.0 <= r < 1.0
    ensures t >= s.thisTimestamp
  {
    s.thisTimestamp + Wait(c.mintPeriod, c.noise, r)
  }

  /** The clock step of a tick: the proposed clock, its fee period, and the
      clock after the boundary check. */
  datatype Advance = Advance(proposed: real, thisPeriod: nat, time: real, crossed: bool)

  /** Advancing the clock and checking for a fee-period boundary (cfm.py,
      lines 116-126). The new clock is never before the current one. */
  function AdvanceClock(c: Config, s: SimState, r: real): (a: Advance)
    requires Inv(c, s) && -1.0 <= r < 1.0
    ensures a.proposed == Proposed(c, s, r)
    ensures a.thisPeriod == PeriodOf(a.proposed, c.feePeriod) == PeriodOf(a.time, c.feePeriod)
    ensures s.thisTimestamp <= a.time && s.lastTimestamp <= a.time
    ensures a.crossed <==> a.thisPeriod > PeriodOf(s.lastTimestamp, c.feePeriod)
    ensures a.crossed ==> && a.time == a.thisPeriod as real * c.feePeriod as real
                          && Aligned(a.time, c.feePeriod)
                          && s.lastTimestamp < a.time <= a.proposed
    ensures !a.crossed ==> a.time == a.proposed
  {
    var proposed := Proposed(c, s, r);
    var (t, crossed) := Snap(proposed, s.lastTimestamp, c.feePeriod);
    SnapNotBefore(proposed, s.lastTimestamp, s.thisTimestamp, c.feePeriod);
    Advance(proposed, PeriodOf(proposed, c.feePeriod), t, crossed)
  }

  /** The outcome of the mint computation and the throttle. */
  datatype Admission = Admission(skipped: bool, usdPerDay: real, mint: real,
                                 txFees: real, numMints: nat, numSkips: nat)

  /** The mint computation and the throttle (cfm.py, lines 129-162) for a tick
      whose clock is `t`. The bootstrap tick keeps `mint` and everything else;
      a later tick mints `shares * (growth(delta / period) - 1)` unless the
      projected fee rate exceeds the tolerance. */
  function Admit(c: Config, s: SimState, t: real, growth: real -> real): (ad: Admission)
    requires Inv(c, s) && s.lastTimestamp <= t && PowLaw(c.inflationRate, growth)
    ensures s.lastTimestamp == 0.0 ==>
              ad == Admission(false, 0.0, s.mint, s.txFees, s.numMints, s.numSkips)
    ensures s.lastTimestamp != 0.0 ==> t > 0.0
    ensures s.fundShares + ad.mint > 0.0
  {
    if s.lastTimestamp == 0.0 then
      Admission(false, 0.0, s.mint, s.txFees, s.numMints, s.numSkips)
    else
      var candidate := CandidateMint(s.fundShares, growth(Slice(c, s, t)));
      var (skip, usdPerDay) := Throttle(c.tolerance, s.txFees, t);
      if skip then Admission(true, usdPerDay, 0.0, s.txFees, s.numMints, s.numSkips + 1)
      else Admission(false, usdPerDay, candidate, s.txFees + TxFee, s.numMints + 1, s.numSkips)
  }

  /** The drift-scaled time since the last committed tick as a fraction of
      the fee period: the exponent of the inflation rate (cfm.py, lines
      129-130 and 142). */
  function Slice(c: Config, s: SimState, t: real): real
    requires c.feePeriod > 0
  {
    Delta(c, s, t) / c.feePeriod as real
  }

  /** The time since the last committed tick, scaled by the clock drift
      (cfm.py, lines 129-130). */
  function Delta(c: Config, s: SimState, t: real): real {
    (t - s.lastTimestamp) * (1.0 + c.drift)
  }

  /** The admission of a tick after the bootstrap tick: the clock is past
      zero, so the throttle's division is defined, and the tick is either
      skipped or mints the candidate for the growth of its drift-scaled
      delta. */
  lemma AdmitLater(c: Config, s: SimState, t: real, growth: real -> real)
    requires Inv(c, s) && s.lastTimestamp <= t && PowLaw(c.inflationRate, growth)
    requires s.lastTimestamp != 0.0
    ensures t > 0.0
    ensures growth(Slice(c, s, t)) > 0.0
    ensures Throttle(c.tolerance, s.txFees, t).0 ==>
      Admit(c, s, t, growth)
        == Admission(true, Throttle(c.tolerance, s.txFees, t).1, 0.0, s.txFees, s.numMints, s.numSkips + 1)
    ensures !Throttle(c.tolerance, s.txFees, t).0 ==>
      Admit(c, s, t, growth)
        == Admission(false, Throttle(c.tolerance, s.txFees, t).1,
                     CandidateMint(s.fundShares, growth(Slice(c, s, t))),
                     s.txFees + TxFee, s.numMints + 1, s.numSkips)
  {
  }

  /** Dilution, valuation, the period summary with its counter reset, and
      the commit of the clock (cfm.py, lines 165-189). */
  function Settle(c: Config, s: SimState, a: Advance, ad: Admission): (res: (SimState, TickRecord))
    requires ValidConfig(c) && s.fundShares + ad.mint > 0.0
  {
    var bootstrap := s.lastTimestamp == 0.0;
    var newPeriod := a.crossed || bootstrap;
    var delta := Delta(c, s, a.time);
    var fundShares := s.fundShares + ad.mint;
    var fundPrice := FundValue / fundShares;
    var earnings := s.earnings + ad.mint * fundPrice;
    var customerValue := fundPrice * CustomerShares;
    var summary :=
      if newPeriod then
        var ideal := Ideal(c, a.thisPeriod);
        Some(Summary(if bootstrap then s.lastTimestamp else a.time, a.thisPeriod,
                     ad.numMints, ad.numSkips, ideal, Abs(customerValue - ideal), earnings))
      else None;
    var lastTimestamp := if !ad.skipped || newPeriod then a.time else s.lastTimestamp;
    (SimState(a.time, lastTimestamp, fundShares, earnings, ad.txFees,
              if newPeriod then 0 else ad.numMints, if newPeriod then 0 else ad.numSkips, ad.mint),
     TickRecord(a.time, delta, ad.mint, ad.skipped, newPeriod, fundShares, fundPrice, customerValue,
                ad.txFees, ad.usdPerDay, summary))
  }

  /** One iteration of the simulation loop: the new state and what it reports. */
  function Tick(c: Config, s: SimState, r: real, growth: real -> real): (res: (SimState, TickRecord))
    requires Inv(c, s) && -1.0 <= r < 1.0 && PowLaw(c.inflationRate, growth)
    ensures Inv(c, res.0)
  {
    var a := AdvanceClock(c, s, r);
    Settle(c, s, a, Admit(c, s, a.time, growth))
  }

  /** The per-period counters as they stood before a boundary tick reset
      them: the summary's counts on a boundary tick, the state's otherwise. */
  function CountsBeforeReset(s: SimState, rec: TickRecord): (nat, nat) {
    if rec.summary.Some? then (rec.summary.value.numMints, rec.summary.value.numSkips)
    else (s.numMints, s.numSkips)
  }

  /** The clock never runs backwards, and neither does the last committed clock. */
  lemma TickClockMonotone(c: Config, s: SimState, r: real, growth: real -> real)
    requires Inv(c, s) && -1.0 <= r < 1.0 && PowLaw(c.inflationRate, growth)
    ensures var (s', rec) := Tick(c, s, r, growth);
      && s'.thisTimestamp >= s.thisTimestamp
      && s'.lastTimestamp >= s.lastTimestamp
      && rec.time == s'.thisTimestamp
  {
    SnapNotBefore(Proposed(c, s, r), s.lastTimestamp, s.thisTimestamp, c.feePeriod);
  }

  /** The summary of a tick that crossed a fee-period boundary, as opposed
      to the summary the bootstrap tick reports at clock zero. */
  predicate CrossingSummary(rec: TickRecord) {
    rec.summary.Some? && rec.summary.value.displayTime != 0.0
  }

  /** A tick never moves the clock into an earlier fee period; a summary is
      for the fee period of the tick's clock, and a crossing summary is for
      a later period than the clock the tick started from. */
  lemma TickPeriodAdvance(c: Config, s: SimState, r: real, growth: real -> real)
    requires Inv(c, s) && -1.0 <= r < 1.0 && PowLaw(c.inflationRate, growth)
    ensures var (s', rec) := Tick(c, s, r, growth);
      && PeriodOf(s'.thisTimestamp, c.feePeriod) >= PeriodOf(s.thisTimestamp, c.feePeriod)
      && (rec.summary.Some? ==> rec.summary.value.period == PeriodOf(rec.time, c.feePeriod))
      && (CrossingSummary(rec) ==>
            rec.summary.value.period > PeriodOf(s.thisTimestamp, c.feePeriod))
  {
    var a := AdvanceClock(c, s, r);
    TickClockMonotone(c, s, r, growth);
    PeriodMonotone(s.thisTimestamp, a.time, c.feePeriod);
  }

  /** When the longest wait is no longer than the fee period, a tick moves
      the clock on by at most one fee period, and a tick that does move it
      into the next period reports the crossing summary of that period. */
  lemma TickAtMostOnePeriod(c: Config, s: SimState, r: real, growth: real -> real)
    requires Inv(c, s) && -1.0 <= r < 1.0 && PowLaw(c.inflationRate, growth)
    requires c.mintPeriod + c.noise <= c.feePeriod
    ensures var (s', rec) := Tick(c, s, r, growth);
      var k := PeriodOf(s.thisTimestamp, c.feePeriod);
      && PeriodOf(s'.thisTimestamp, c.feePeriod) <= k + 1
      && (PeriodOf(s'.thisTimestamp, c.feePeriod) > k ==>
            CrossingSummary(rec) && rec.summary.value.period == PeriodOf(s'.thisTimestamp, c.feePeriod))
  {
    var k := PeriodOf(s.thisTimestamp, c.feePeriod);
    var p := c.feePeriod as real;
    var proposed := Proposed(c, s, r);
    FloorBounds(s.thisTimestamp, c.feePeriod);
    assert proposed < s.thisTimestamp + p;
    assert (k + 2) as real * p == (k + 1) as real * p + p;
    PeriodBelow(proposed, k + 2, c.feePeriod);
    if s.lastTimestamp == 0.0 {
      assert proposed < 1 as real * p;
      PeriodBelow(proposed, 1, c.feePeriod);
    }
    TickPeriodAdvance(c, s, r, growth);
  }

  /** The boundary check: a tick whose proposed clock lies in a later fee
      period than the last committed clock is snapped back to the exact start
      of that period, counts as a new period and is committed; any other tick
      keeps its proposed clock and is a new period only when it bootstraps. */
  lemma TickBoundary(c: Config, s: SimState, r: real, growth: real -> real)
    requires Inv(c, s) && -1.0 <= r < 1.0 && PowLaw(c.inflationRate, growth)
    ensures var (s', rec) := Tick(c, s, r, growth);
      var proposed := Proposed(c, s, r);
      var k := PeriodOf(proposed, c.feePeriod);
      && (k > PeriodOf(s.lastTimestamp, c.feePeriod) ==>
            && s'.thisTimestamp == k as real * c.feePeriod as real
            && Aligned(s'.thisTimestamp, c.feePeriod)
            && s.lastTimestamp < s'.thisTimestamp <= proposed
            && rec.newPeriod
            && s'.lastTimestamp == s'.thisTimestamp)
      && (k <= PeriodOf(s.lastTimestamp, c.feePeriod) ==>
            && s'.thisTimestamp == proposed
            && (rec.newPeriod <==> s.lastTimestamp == 0.0))
  {
  }

  /** The first tick (no clock committed yet) mints nothing, pays no fee, is
      never throttled, and reports a period start with the untouched mint count. */
  lemma TickBootstrap(c: Config, s: SimState, r: real, growth: real -> real)
    requires Inv(c, s) && -1.0 <= r < 1.0 && PowLaw(c.inflationRate, growth)
    requires s.lastTimestamp == 0.0
    ensures var (s', rec) := Tick(c, s, r, growth);
      && rec.newPeriod && !rec.skipped
      && rec.mint == 0.0 && s'.fundShares == s.fundShares
      && s'.txFees == s.txFees
      && rec.summary.Some?
      && rec.summary.value.displayTime == 0.0
      && CountsBeforeReset(s', rec) == (s.numMints, s.numSkips)
      && s'.lastTimestamp == s'.thisTimestamp
  {
  }

  /** The throttle of every later tick: the elapsed time is positive, so the
      projected fee rate is defined; the tick is skipped exactly when that
      rate exceeds the tolerance. */
  lemma TickThrottle(c: Config, s: SimState, r: real, growth: real -> real)
    requires Inv(c, s) && -1.0 <= r < 1.0 && PowLaw(c.inflationRate, growth)
    requires s.lastTimestamp != 0.0
    ensures var (s', rec) := Tick(c, s, r, growth);
      && s'.thisTimestamp > 0.0
      && (rec.skipped <==>
            (s.txFees + TxFee) / (s'.thisTimestamp / SecondsPerDay as real) > c.tolerance)
      && rec.usdPerDay == (s.txFees + TxFee) / (s'.thisTimestamp / SecondsPerDay as real)
      && rec.delta == Delta(c, s, s'.thisTimestamp)
  {
    var a := AdvanceClock(c, s, r);
    AdmitLater(c, s, a.time, growth);
  }

  /** What a later tick does after the throttle: a skipped tick mints nothing
      and pays nothing; a minting tick pays one transaction fee and grows the
      share count by the factor `growth(delta / period)`. */
  lemma TickOutcome(c: Config, s: SimState, r: real, growth: real -> real)
    requires Inv(c, s) && -1.0 <= r < 1.0 && PowLaw(c.inflationRate, growth)
    requires s.lastTimestamp != 0.0
    ensures var (s', rec) := Tick(c, s, r, growth);
      && (rec.skipped ==>
            && rec.mint == 0.0 && s'.fundShares == s.fundShares
            && s'.txFees == s.txFees
            && CountsBeforeReset(s', rec) == (s.numMints, s.numSkips + 1))
      && (!rec.skipped ==>
            && s'.fundShares == s.fundShares * growth(rec.delta / c.feePeriod as real)
            && s'.txFees == s.txFees + TxFee
            && CountsBeforeReset(s', rec) == (s.numMints + 1, s.numSkips))
  {
    var a := AdvanceClock(c, s, r);
    AdmitLater(c, s, a.time, growth);
  }

  /** Committing, resetting and reporting: the last committed clock moves to
      the tick's clock exactly when the tick minted or started a new period
      (otherwise its elapsed time rolls into the next tick's delta); a new
      period resets both counters and is the only kind of tick with a summary. */
  lemma TickCommit(c: Config, s: SimState, r: real, growth: real -> real)
    requires Inv(c, s) && -1.0 <= r < 1.0 && PowLaw(c.inflationRate, growth)
    ensures var (s', rec) := Tick(c, s, r, growth);
      && s'.lastTimestamp == (if !rec.skipped || rec.newPeriod then s'.thisTimestamp else s.lastTimestamp)
      && (rec.summary.Some? <==> rec.newPeriod)
      && (rec.newPeriod ==> s'.numMints == 0 && s'.numSkips == 0)
      && (!rec.newPeriod ==> s'.numMints + s'.numSkips == s.numMints + s.numSkips + 1)
  {
  }

  /** The reported fees, earnings, delta and clock of a tick: the record
      carries the state's new fees, a summary carries the new earnings, the
      delta is the drift-scaled time since the last commit, a crossing
      summary is shown at the tick's clock, and the bootstrap tick reports
      a fee rate of 0. */
  lemma TickReport(c: Config, s: SimState, r: real, growth: real -> real)
    requires Inv(c, s) && -1.0 <= r < 1.0 && PowLaw(c.inflationRate, growth)
    ensures var (s', rec) := Tick(c, s, r, growth);
      && rec.txFees == s'.txFees
      && rec.delta == Delta(c, s, rec.time)
      && (rec.summary.Some? ==> rec.summary.value.earnings == s'.earnings)
      && (CrossingSummary(rec) ==> rec.summary.value.displayTime == rec.time)
      && (s.lastTimestamp == 0.0 ==> rec.usdPerDay == 0.0)
  {
  }

  /** The reported valuation: the share price divides the fund's value over
      the new share count, and the minted shares are valued at that price. */
  lemma TickValuation(c: Config, s: SimState, r: real, growth: real -> real)
    requires Inv(c, s) && -1.0 <= r < 1.0 && PowLaw(c.inflationRate, growth)
    ensures var (s', rec) := Tick(c, s, r, growth);
      && Valued(s, s', rec)
      && (rec.summary.Some? ==>
            rec.summary.value.ideal == Ideal(c, PeriodOf(Proposed(c, s, r), c.feePeriod)))
  {
    var a := AdvanceClock(c, s, r);
    var ad := Admit(c, s, a.time, growth);
    SettleValuation(c, s, a, ad);
  }

  /** The valuation facts of a settled tick: the fund's value is preserved
      by dilution, the fee earned is the minted shares at the new price, and
      a summary's error is the distance between the customer's holding and
      the ideal. */
  predicate Valued(s: SimState, s': SimState, rec: TickRecord) {
    && rec.fundShares == s'.fundShares == s.fundShares + rec.mint
    && rec.fundPrice * s'.fundShares == FundValue
    && rec.customerValue == rec.fundPrice * CustomerShares
    && s'.earnings == s.earnings + rec.mint * rec.fundPrice
    && (rec.summary.Some? ==> rec.summary.value.err == Abs(rec.customerValue - rec.summary.value.ideal))
  }

  /** The valuation part of settling a tick, for any clock step and admission. */
  lemma SettleValuation(c: Config, s: SimState, a: Advance, ad: Admission)
    requires ValidConfig(c) && s.fundShares + ad.mint > 0.0
    ensures var (s', rec) := Settle(c, s, a, ad);
      && Valued(s, s', rec)
      && (rec.summary.Some? ==> rec.summary.value.ideal == Ideal(c, a.thisPeriod))
  {
    var shares := s.fundShares + ad.mint;
    assert (FundValue / shares) * shares == FundValue;
  }

  /** With a clock drift of at least -1 the drift-scaled delta is never
      negative, so no tick mints a negative amount: shares and fees never
      decrease. */
  lemma TickNonDecreasing(c: Config, s: SimState, r: real, growth: real -> real)
    requires Inv(c, s) && -1.0 <= r < 1.0 && PowLaw(c.inflationRate, growth)
    requires c.drift >= -1.0
    ensures var (s', rec) := Tick(c, s, r, growth);
      && rec.mint >= 0.0
      && s'.fundShares >= s.fundShares
      && s'.txFees >= s.txFees
  {
    var a := AdvanceClock(c, s, r);
    AdmitNonDecreasing(c, s, a.time, growth);
  }

  /** The admission half of the same fact: with a drift of at least -1 the
      candidate mint is never negative and the fees never drop. */
  lemma AdmitNonDecreasing(c: Config, s: SimState, t: real, growth: real -> real)
    requires Inv(c, s) && s.lastTimestamp <= t && PowLaw(c.inflationRate, growth)
    requires c.drift >= -1.0
    ensures Admit(c, s, t, growth).mint >= 0.0
    ensures Admit(c, s, t, growth).txFees >= s.txFees
  {
    if s.lastTimestamp != 0.0 {
      AdmitLater(c, s, t, growth);
      NonNegativeSlice(t - s.lastTimestamp, c.drift, c.feePeriod as real);
      assert Slice(c, s, t) >= 0.0;
      assert growth(Slice(c, s, t)) >= 1.0;
    }
  }

  lemma NonNegativeSlice(elapsed: real, drift: real, p: real)
    requires elapsed >= 0.0 && drift >= -1.0 && p > 0.0
    ensures elapsed * (1.0 + drift) / p >= 0.0
  {
    assert elapsed * (1.0 + drift) >= 0.0;
  }

  /** The clock, the last committed clock and the fees never decrease over
      a tick; with a drift of at least -1 neither does the share count. */
  lemma TickMonotone(c: Config, s: SimState, r: real, growth: real -> real)
    requires Inv(c, s) && -1.0 <= r < 1.0 && PowLaw(c.inflationRate, growth)
    ensures var s' := Tick(c, s, r, growth).0;
      && s'.thisTimestamp >= s.thisTimestamp
      && s'.lastTimestamp >= s.lastTimestamp
      && s'.txFees >= s.txFees
      && (c.drift >= -1.0 ==> s'.fundShares >= s.fundShares)
  {
    TickClockMonotone(c, s, r, growth);
    if c.drift >= -1.0 {
      TickNonDecreasing(c, s, r, growth);
    } else if s.lastTimestamp != 0.0 {
      TickOutcome(c, s, r, growth);
    }
  }

  /** A boundary tick is throttled like any other tick: when the projected fee
      rate at the period start exceeds the tolerance, it mints nothing and pays
      nothing, yet it is committed, so the time since the last committed clock
      is never minted for. */
  lemma ThrottledBoundaryTick(c: Config, s: SimState, r: real, growth: real -> real)
    requires Inv(c, s) && -1.0 <= r < 1.0 && PowLaw(c.inflationRate, growth)
    requires s.lastTimestamp != 0.0
    requires PeriodOf(Proposed(c, s, r), c.feePeriod) > PeriodOf(s.lastTimestamp, c.feePeriod)
    requires var t := PeriodOf(Proposed(c, s, r), c.feePeriod) as real * c.feePeriod as real;
      (s.txFees + TxFee) / (t / SecondsPerDay as real) > c.tolerance
    ensures var (s', rec) := Tick(c, s, r, growth);
      && rec.newPeriod && rec.skipped
      && rec.mint == 0.0 && s'.fundShares == s.fundShares && s'.txFees == s.txFees
      && s'.lastTimestamp == s'.thisTimestamp > s.lastTimestamp
  {
    TickBoundary(c, s, r, growth);
    TickThrottle(c, s, r, growth);
    TickOutcome(c, s, r, growth);
  }

  /** With zero (or negative) tolerance every tick after the first is skipped,
      boundary ticks included. */
  lemma ZeroToleranceSkipsAll(c: Config, s: SimState, r: real, growth: real -> real)
    requires Inv(c, s) && -1.0 <= r < 1.0 && PowLaw(c.inflationRate, growth)
    requires c.tolerance <= 0.0 && s.lastTimestamp != 0.0
    ensures var (s', rec) := Tick(c, s, r, growth);
      && rec.skipped && rec.mint == 0.0
      && s'.txFees == s.txFees && s'.fundShares == s.fundShares
      && (rec.newPeriod ==> s'.lastTimestamp == s'.thisTimestamp)
      && (!rec.newPeriod ==> s'.lastTimestamp == s.lastTimestamp)
  {
    TickThrottle(c, s, r, growth);
    TickOutcome(c, s, r, growth);
  }
}
