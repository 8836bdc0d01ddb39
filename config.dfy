/** The command-line validators of the continuous fee minting simulation and
    the configuration the program derives from its options before the
    simulation loop starts (cfm.py, lines 21-32 and 74-84). */
module CfmConfig {

  /** The errors the program raises before any tick is simulated. */
  datatype ConfigError =
    | PercentOutOfRange(given: real)          // `percentage` rejects the value
    | NotPositive(value: int)                 // `positive_int` rejects the value
    | FeeDivisionByZero                       // inflation_rate = 1/(1 - fee) with fee == 1
    | NoiseExceedsMint(noise: int, mint: int) // the jitter bound check

  datatype Result<+T> = Ok(value: T) | Err(error: ConfigError) {
    predicate IsFailure() { Err? }
    function PropagateFailure<U>(): Result<U> requires Err? { Err(error) }
    function Extract(): T requires Ok? { value }
  }

  const SecondsPerDay: int := 60 * 60 * 24

  /** The `percentage` argument type: the value itself when it lies in [0, 1]. */
  function Percentage(x: real): (r: Result<real>)
    ensures r.Ok? <==> 0.0 <= x <= 1.0
    ensures r.Ok? ==> r.value == x
    ensures r.Err? ==> r.error == PercentOutOfRange(x)
  {
    if x < 0.0 || x > 1.0 then Err(PercentOutOfRange(x)) else Ok(x)
  }

  /** The `positive_int` argument type: the value itself when it is at least 1. */
  function PositiveInt(x: int): (r: Result<int>)
    ensures r.Ok? <==> x > 0
    ensures r.Ok? ==> r.value == x
    ensures r.Err? ==> r.error == NotPositive(x)
  {
    if x <= 0 then Err(NotPositive(x)) else Ok(x)
  }

  /** The options as given on the command line (`--period` is in days). */
  datatype Args = Args(fee: real, periodDays: int, mint: int, noise: int,
                       drift: real, tolerance: real)

  /** The run's configuration; `feePeriod` is in seconds. */
  datatype Config = Config(mgmtFee: real, inflationRate: real, feePeriod: int,
                           mintPeriod: int, noise: int, drift: real, tolerance: real)

  /** What every configuration the program accepts satisfies; the tie between
      the inflation rate and the fee is stated by `Configure` itself. */
  predicate ValidConfig(c: Config) {
    && 0.0 <= c.mgmtFee < 1.0
    && c.feePeriod > 0 && c.feePeriod % SecondsPerDay == 0
    && c.mintPeriod > 0
    && 0 < c.noise <= c.mintPeriod
  }

  /** The conditions under which the program starts the simulation at all. */
  predicate Accepted(a: Args) {
    && 0.0 <= a.fee < 1.0
    && a.periodDays > 0 && a.mint > 0 && a.noise > 0
    && a.noise <= a.mint
  }

  /** Option validation, the derived inflation rate and fee period, and the
      jitter bound check, in the order the program performs them. */
  function Configure(a: Args): (r: Result<Config>)
    ensures r.Ok? <==> Accepted(a)
    ensures r.Ok? ==> ValidConfig(r.value)
    ensures r.Ok? ==> r.value == Config(a.fee, r.value.inflationRate, a.periodDays * SecondsPerDay,
                                        a.mint, a.noise, a.drift, a.tolerance)
    ensures r.Ok? ==> r.value.inflationRate == 1.0 / (1.0 - a.fee)
    ensures r.Ok? ==> r.value.inflationRate * (1.0 - a.fee) == 1.0 && r.value.inflationRate >= 1.0
    ensures !(0.0 <= a.fee <= 1.0) ==> r == Err(PercentOutOfRange(a.fee))
    ensures 0.0 <= a.fee <= 1.0 && a.periodDays <= 0 ==> r == Err(NotPositive(a.periodDays))
    ensures 0.0 <= a.fee <= 1.0 && a.periodDays > 0 && a.mint <= 0 ==> r == Err(NotPositive(a.mint))
    ensures 0.0 <= a.fee <= 1.0 && a.periodDays > 0 && a.mint > 0 && a.noise <= 0 ==>
              r == Err(NotPositive(a.noise))
    ensures a.fee == 1.0 && a.periodDays > 0 && a.mint > 0 && a.noise > 0 ==> r == Err(FeeDivisionByZero)
  {
    var fee :- Percentage(a.fee);
    var days :- PositiveInt(a.periodDays);
    var mint :- PositiveInt(a.mint);
    var noise :- PositiveInt(a.noise);
    if fee == 1.0 then Err(FeeDivisionByZero)
    else
      var rate := 1.0 / (1.0 - fee);
      InflationRateAtLeastOne(fee);
      if noise > mint then Err(NoiseExceedsMint(noise, mint))
      else Ok(Config(fee, rate, days * SecondsPerDay, mint, noise, a.drift, a.tolerance))
  }

  lemma InflationRateAtLeastOne(fee: real)
    requires 0.0 <= fee < 1.0
    ensures (1.0 / (1.0 - fee)) * (1.0 - fee) == 1.0
    ensures 1.0 / (1.0 - fee) >= 1.0
  {
    var d := 1.0 - fee;
    assert 0.0 < d <= 1.0;
    assert (1.0 / d) * d == 1.0;
  }

  /** With every option valid on its own, the configuration is rejected
      exactly when the jitter bound exceeds the mint period: a bound equal
      to the mint period is accepted. */
  lemma NoiseCheckExact(a: Args)
    requires 0.0 <= a.fee < 1.0 && a.periodDays > 0 && a.mint > 0 && a.noise > 0
    ensures Configure(a).Err? <==> a.noise > a.mint
    ensures Configure(a).Err? ==> Configure(a).error == NoiseExceedsMint(a.noise, a.mint)
  {
  }

  /** One jittered wait between two mint attempts: the mint period plus `r`
      times the jitter bound, for a uniform `r` in [-1, 1). No floor is
      applied to the result. */
  function Wait(mintPeriod: int, noise: int, r: real): (w: real)
    ensures -1.0 <= r < 1.0 && noise > 0 ==>
              (mintPeriod - noise) as real <= w < (mintPeriod + noise) as real
  {
    JitterBounds(r, noise as real);
    assert (mintPeriod - noise) as real == mintPeriod as real - noise as real;
    assert (mintPeriod + noise) as real == mintPeriod as real + noise as real;
    mintPeriod as real + r * noise as real
  }

  lemma JitterBounds(r: real, n: real)
    ensures -1.0 <= r < 1.0 && n > 0.0 ==> -n <= r * n < n
  {
    if -1.0 <= r < 1.0 && n > 0.0 {
      assert (r + 1.0) * n >= 0.0;
      assert (1.0 - r) * n > 0.0;
    }
  }

  /** Every possible wait is non-negative exactly when the jitter bound does
      not exceed the mint period, which is what the configuration check
      enforces; the clock can therefore never move backwards. */
  lemma WaitNonNegativeIff(mintPeriod: int, noise: int)
    requires mintPeriod > 0 && noise > 0
    ensures (forall r :: -1.0 <= r < 1.0 ==> Wait(mintPeriod, noise, r) >= 0.0) <==> noise <= mintPeriod
  {
    if noise > mintPeriod {
      assert Wait(mintPeriod, noise, -1.0) < 0.0;
    }
  }

  /** The accepted boundary case of the jitter check: with the bound equal to
      the mint period a draw of r = -1 gives a wait of zero. */
  lemma ZeroWaitAccepted(a: Args)
    requires 0.0 <= a.fee < 1.0 && a.periodDays > 0 && a.mint > 0
    requires a.noise == a.mint
    ensures Configure(a).Ok?
    ensures Wait(Configure(a).value.mintPeriod, Configure(a).value.noise, -1.0) == 0.0
  {
  }
}
