/** The simulation engine of cfm.py: the loop variables as the fields of an
    object, one tick as a method that updates them in place (lines 113-189),
    the loop over a finite stream of random draws, and the whole program from
    options to report (lines 74-84 and 103-189). */
module CfmEngine {
  import opened CfmConfig
  import opened CfmTick

  /** Draws of `random.random() * 2 - 1`, each in [-1, 1). */
  predicate Draws(rs: seq<real>) {
    forall i :: 0 <= i < |rs| ==> -1.0 <= rs[i] < 1.0
  }

  /** The simulation loop: it runs while the clock has not passed the horizon
      and a random draw is left, and yields the final state and the records. */
  function Simulate(c: Config, s: SimState, rs: seq<real>, growth: real -> real): (res: (SimState, seq<TickRecord>))
    requires Inv(c, s) && Draws(rs) && PowLaw(c.inflationRate, growth)
    ensures Inv(c, res.0) && |res.1| <= |rs|
    ensures |res.1| == |rs| || res.0.thisTimestamp > Horizon(c)
    decreases |rs|
  {
    if rs == [] || s.thisTimestamp > Horizon(c) then (s, [])
    else
      var (s1, rec) := Tick(c, s, rs[0], growth);
      var (sf, recs) := Simulate(c, s1, rs[1..], growth);
      (sf, [rec] + recs)
  }

  lemma DrawsTail(rs: seq<real>)
    requires Draws(rs) && rs != []
    ensures -1.0 <= rs[0] < 1.0 && Draws(rs[1..])
  {
    forall i | 0 <= i < |rs[1..]| ensures -1.0 <= rs[1..][i] < 1.0 {
      assert rs[1..][i] == rs[i + 1];
    }
  }

  /** One turn of the loop: a run that has not stopped is its first tick
      followed by the run from that tick's state. */
  lemma SimulateUnfold(c: Config, s: SimState, rs: seq<real>, growth: real -> real)
    requires Inv(c, s) && Draws(rs) && PowLaw(c.inflationRate, growth)
    requires rs != [] && s.thisTimestamp <= Horizon(c)
    ensures Draws(rs[1..])
    ensures var (s1, rec) := Tick(c, s, rs[0], growth);
      Simulate(c, s, rs, growth)
        == (Simulate(c, s1, rs[1..], growth).0, [rec] + Simulate(c, s1, rs[1..], growth).1)
  {
    DrawsTail(rs);
  }

  /** The same turn of the loop, stated for a tick already taken. */
  lemma SimulateStep(c: Config, s: SimState, rs: seq<real>, growth: real -> real,
                     s1: SimState, rec: TickRecord)
    requires Inv(c, s) && Draws(rs) && PowLaw(c.inflationRate, growth)
    requires rs != [] && s.thisTimestamp <= Horizon(c)
    requires (s1, rec) == Tick(c, s, rs[0], growth)
    ensures Inv(c, s1) && Draws(rs[1..])
    ensures Simulate(c, s, rs, growth)
            == (Simulate(c, s1, rs[1..], growth).0, [rec] + Simulate(c, s1, rs[1..], growth).1)
  {
    SimulateUnfold(c, s, rs, growth);
  }

  /** The loop guard over a whole run: no tick starts from a clock past the
      horizon, so a run that starts past it yields nothing, and every record
      but the last has a clock within the horizon. */
  lemma {:induction false} SimulateHorizon(c: Config, s: SimState, rs: seq<real>, growth: real -> real)
    requires Inv(c, s) && Draws(rs) && PowLaw(c.inflationRate, growth)
    ensures s.thisTimestamp > Horizon(c) ==> Simulate(c, s, rs, growth).1 == []
    ensures Simulate(c, s, rs, growth).1 != [] ==> s.thisTimestamp <= Horizon(c)
    ensures var recs := Simulate(c, s, rs, growth).1;
      forall i :: 0 <= i < |recs| - 1 ==> recs[i].time <= Horizon(c)
    decreases |rs|
  {
    if rs != [] && s.thisTimestamp <= Horizon(c) {
      SimulateUnfold(c, s, rs, growth);
      var (s1, rec) := Tick(c, s, rs[0], growth);
      TickClockMonotone(c, s, rs[0], growth);
      SimulateHorizon(c, s1, rs[1..], growth);
      var tail := Simulate(c, s1, rs[1..], growth).1;
      var all := [rec] + tail;
      assert Simulate(c, s, rs, growth).1 == all;
      forall i | 0 <= i < |all| - 1
        ensures all[i].time <= Horizon(c)
      {
        if i > 0 {
          assert all[i] == tail[i - 1];
        }
      }
    }
  }

  /** Over a whole run the clock, the last committed clock and the fees never
      decrease; with a drift of at least -1 neither does the share count. */
  lemma {:induction false} SimulateMonotone(c: Config, s: SimState, rs: seq<real>, growth: real -> real)
    requires Inv(c, s) && Draws(rs) && PowLaw(c.inflationRate, growth)
    ensures var sf := Simulate(c, s, rs, growth).0;
      && sf.thisTimestamp >= s.thisTimestamp
      && sf.lastTimestamp >= s.lastTimestamp
      && sf.txFees >= s.txFees
      && (c.drift >= -1.0 ==> sf.fundShares >= s.fundShares)
    decreases |rs|
  {
    if rs != [] && s.thisTimestamp <= Horizon(c) {
      SimulateUnfold(c, s, rs, growth);
      var s1 := Tick(c, s, rs[0], growth).0;
      TickMonotone(c, s, rs[0], growth);
      SimulateMonotone(c, s1, rs[1..], growth);
    }
  }

  /** The reported clocks of a run are in order and lie between its start
      and its end. */
  lemma {:induction false} SimulateTimesOrdered(c: Config, s: SimState, rs: seq<real>, growth: real -> real)
    requires Inv(c, s) && Draws(rs) && PowLaw(c.inflationRate, growth)
    ensures var res := Simulate(c, s, rs, growth);
      forall i :: 0 <= i < |res.1| ==> s.thisTimestamp <= res.1[i].time <= res.0.thisTimestamp
    ensures var recs := Simulate(c, s, rs, growth).1;
      forall i, j :: 0 <= i < j < |recs| ==> recs[i].time <= recs[j].time
    decreases |rs|
  {
    if rs != [] && s.thisTimestamp <= Horizon(c) {
      SimulateUnfold(c, s, rs, growth);
      var (s1, rec) := Tick(c, s, rs[0], growth);
      TickClockMonotone(c, s, rs[0], growth);
      SimulateTimesOrdered(c, s1, rs[1..], growth);
      SimulateMonotone(c, s1, rs[1..], growth);
      var tail := Simulate(c, s1, rs[1..], growth);
      var all := [rec] + tail.1;
      assert Simulate(c, s, rs, growth) == (tail.0, all);
      forall i | 0 <= i < |all|
        ensures s.thisTimestamp <= all[i].time <= tail.0.thisTimestamp
      {
        if i > 0 {
          assert all[i] == tail.1[i - 1];
        }
      }
      forall i, j | 0 <= i < j < |all|
        ensures all[i].time <= all[j].time
      {
        assert all[j] == tail.1[j - 1];
        if i > 0 {
          assert all[i] == tail.1[i - 1];
        }
      }
    }
  }

  /** Boundary forcing over a whole run: every summary is for the fee period
      of its tick's clock, and a crossing summary is for a later fee period
      than every earlier tick and than the start of the run, so no two
      crossing summaries are for the same period. */
  lemma {:induction false} SimulateCrossingsOrdered(c: Config, s: SimState, rs: seq<real>, growth: real -> real)
    requires Inv(c, s) && Draws(rs) && PowLaw(c.inflationRate, growth)
    ensures var recs := Simulate(c, s, rs, growth).1;
      forall i :: 0 <= i < |recs| && recs[i].summary.Some? ==>
        recs[i].summary.value.period == PeriodOf(recs[i].time, c.feePeriod)
    ensures var recs := Simulate(c, s, rs, growth).1;
      forall j :: 0 <= j < |recs| && CrossingSummary(recs[j]) ==>
        recs[j].summary.value.period > PeriodOf(s.thisTimestamp, c.feePeriod)
    ensures var recs := Simulate(c, s, rs, growth).1;
      forall i, j :: 0 <= i < j < |recs| && CrossingSummary(recs[j]) ==>
        PeriodOf(recs[i].time, c.feePeriod) < recs[j].summary.value.period
    ensures var recs := Simulate(c, s, rs, growth).1;
      forall i, j :: 0 <= i < j < |recs| && CrossingSummary(recs[i]) && CrossingSummary(recs[j]) ==>
        recs[i].summary.value.period < recs[j].summary.value.period
    decreases |rs|
  {
    if rs != [] && s.thisTimestamp <= Horizon(c) {
      SimulateUnfold(c, s, rs, growth);
      var (s1, rec) := Tick(c, s, rs[0], growth);
      TickClockMonotone(c, s, rs[0], growth);
      TickPeriodAdvance(c, s, rs[0], growth);
      SimulateCrossingsOrdered(c, s1, rs[1..], growth);
      var tail := Simulate(c, s1, rs[1..], growth).1;
      var all := [rec] + tail;
      assert Simulate(c, s, rs, growth).1 == all;
      forall i | 0 <= i < |all| && all[i].summary.Some?
        ensures all[i].summary.value.period == PeriodOf(all[i].time, c.feePeriod)
      {
        if i > 0 {
          assert all[i] == tail[i - 1];
        }
      }
      forall j | 0 <= j < |all| && CrossingSummary(all[j])
        ensures all[j].summary.value.period > PeriodOf(s.thisTimestamp, c.feePeriod)
      {
        if j > 0 {
          assert all[j] == tail[j - 1];
        }
      }
      forall i, j | 0 <= i < j < |all| && CrossingSummary(all[j])
        ensures PeriodOf(all[i].time, c.feePeriod) < all[j].summary.value.period
      {
        assert all[j] == tail[j - 1];
        if i > 0 {
          assert all[i] == tail[i - 1];
        }
      }
    }
  }

  /** The other half of boundary forcing: when the longest wait is no
      longer than the fee period, every fee period the clock enters during
      a run gets a crossing summary. */
  lemma {:induction false} EveryPeriodCrossed(c: Config, s: SimState, rs: seq<real>, growth: real -> real, k: int)
    requires Inv(c, s) && Draws(rs) && PowLaw(c.inflationRate, growth)
    requires c.mintPeriod + c.noise <= c.feePeriod
    requires PeriodOf(s.thisTimestamp, c.feePeriod) < k
    requires k <= PeriodOf(Simulate(c, s, rs, growth).0.thisTimestamp, c.feePeriod)
    ensures var recs := Simulate(c, s, rs, growth).1;
      exists j :: 0 <= j < |recs| && CrossingSummary(recs[j]) && recs[j].summary.value.period == k
    decreases |rs|
  {
    if rs != [] && s.thisTimestamp <= Horizon(c) {
      SimulateUnfold(c, s, rs, growth);
      var (s1, rec) := Tick(c, s, rs[0], growth);
      TickAtMostOnePeriod(c, s, rs[0], growth);
      var tail := Simulate(c, s1, rs[1..], growth);
      var all := [rec] + tail.1;
      assert Simulate(c, s, rs, growth) == (tail.0, all);
      if PeriodOf(s1.thisTimestamp, c.feePeriod) >= k {
        assert all[0] == rec;
      } else {
        EveryPeriodCrossed(c, s1, rs[1..], growth, k);
        var j :| 0 <= j < |tail.1| && CrossingSummary(tail.1[j]) && tail.1[j].summary.value.period == k;
        assert all[j + 1] == tail.1[j];
      }
    }
  }

  /** A run from the initial state: its first tick is the bootstrap tick,
      which mints nothing and reports a period start with no mints; with a
      drift of at least -1 the share count never drops below the initial
      shares, so the share price is always defined. */
  lemma SimulateFromStart(c: Config, rs: seq<real>, growth: real -> real)
    requires ValidConfig(c) && Draws(rs) && PowLaw(c.inflationRate, growth)
    ensures Inv(c, Init())
    ensures var (sf, recs) := Simulate(c, Init(), rs, growth);
      && (rs != [] ==>
            && |recs| > 0
            && recs[0].newPeriod && !recs[0].skipped && recs[0].mint == 0.0
            && recs[0].fundShares == InitShares
            && recs[0].summary.Some? && recs[0].summary.value.numMints == 0)
      && (c.drift >= -1.0 ==> sf.fundShares >= InitShares)
  {
    assert Inv(c, Init());
    SimulateMonotone(c, Init(), rs, growth);
    if rs != [] {
      TickBootstrap(c, Init(), rs[0], growth);
      TickValuation(c, Init(), rs[0], growth);
    }
  }

  /** The simulation state, updated in place once per tick. */
  class Engine {
    const cfg: Config
    var thisTimestamp: real
    var lastTimestamp: real
    var fundShares: real
    var earnings: real
    var txFees: real
    var numMints: nat
    var numSkips: nat
    var mint: real

    function State(): SimState
      reads this
    {
      SimState(thisTimestamp, lastTimestamp, fundShares, earnings, txFees, numMints, numSkips, mint)
    }

    predicate Valid()
      reads this
    {
      Inv(cfg, State())
    }

    /** The initial state of the loop variables (cfm.py, lines 103-111). */
    constructor (c: Config)
      requires ValidConfig(c)
      ensures cfg == c && State() == Init() && Valid()
    {
      cfg := c;
      thisTimestamp, lastTimestamp := 0.0, 0.0;
      fundShares := InitShares;
      earnings, txFees := 0.0, 0.0;
      numMints, numSkips := 0, 0;
      mint := 0.0;
    }

    /** One iteration of the loop body (cfm.py, lines 116-189); `r` is the
        random draw and `growth` stands for `pow(inflation_rate, ·)`. */
    method Step(r: real, growth: real -> real) returns (rec: TickRecord)
      requires Valid() && -1.0 <= r < 1.0 && PowLaw(cfg.inflationRate, growth)
      modifies this
      ensures Valid()
      ensures (State(), rec) == Tick(cfg, old(State()), r, growth)
    {
      ghost var s0 := State();
      var newPeriod, thisPeriod := AdvanceTime(r);
      ghost var adv := AdvanceClock(cfg, s0, r);

      var timeDelta := ScaledDelta(s0);

      var skipped := false;
      var usdPerDay := 0.0;
      var displayTime: real;
      if lastTimestamp == 0.0 {
        // the first tick: nothing is committed yet
        newPeriod := true;
        displayTime := lastTimestamp;
      } else {
        skipped, usdPerDay := MintOrSkip(s0, timeDelta, growth);
        displayTime := thisTimestamp;
      }
      ghost var ad := Admit(cfg, s0, adv.time, growth);
      assert Admission(skipped, usdPerDay, mint, txFees, numMints, numSkips) == ad;
      rec := Settle(s0, adv, ad, newPeriod, thisPeriod, timeDelta, displayTime, skipped, usdPerDay);
      assert Tick(cfg, s0, r, growth) == CfmTick.Settle(cfg, s0, adv, ad);
    }

    /** The jittered wait and the snap to a period boundary (cfm.py, lines
        116-126). */
    method AdvanceTime(r: real) returns (newPeriod: bool, thisPeriod: int)
      requires Valid() && -1.0 <= r < 1.0
      modifies this`thisTimestamp
      ensures var a := AdvanceClock(cfg, old(State()), r);
                thisTimestamp == a.time && newPeriod == a.crossed && thisPeriod == a.thisPeriod
    {
      ghost var adv := AdvanceClock(cfg, State(), r);

      // the jittered wait
      var wait := Wait(cfg.mintPeriod, cfg.noise, r);
      thisTimestamp := thisTimestamp + wait;

      // snap to the start of a later period
      newPeriod := false;
      thisPeriod := PeriodOf(thisTimestamp, cfg.feePeriod);
      var lastPeriod := PeriodOf(lastTimestamp, cfg.feePeriod);
      if thisPeriod > lastPeriod {
        thisTimestamp := thisPeriod as real * cfg.feePeriod as real;
        newPeriod := true;
      }
    }

    /** The clock sampling error (cfm.py, lines 129-130): the time since the
        last committed tick, scaled by the clock drift. */
    method ScaledDelta(ghost s0: SimState) returns (timeDelta: real)
      requires lastTimestamp == s0.lastTimestamp
      ensures timeDelta == Delta(cfg, s0, thisTimestamp)
    {
      timeDelta := thisTimestamp - lastTimestamp;
      timeDelta := timeDelta * (1.0 + cfg.drift);
    }

    /** The continuous fee minting formula and the fee throttle of a tick
        after the bootstrap tick (cfm.py, lines 140-162); the clock has
        already advanced. */
    method MintOrSkip(ghost s0: SimState, timeDelta: real, growth: real -> real)
      returns (skipped: bool, usdPerDay: real)
      requires Inv(cfg, s0) && PowLaw(cfg.inflationRate, growth)
      requires s0.lastTimestamp != 0.0 && s0.lastTimestamp <= thisTimestamp
      requires timeDelta == Delta(cfg, s0, thisTimestamp)
      requires lastTimestamp == s0.lastTimestamp && fundShares == s0.fundShares
      requires txFees == s0.txFees && numMints == s0.numMints && numSkips == s0.numSkips
      modifies this`mint, this`txFees, this`numMints, this`numSkips
      ensures Admission(skipped, usdPerDay, mint, txFees, numMints, numSkips)
              == Admit(cfg, s0, thisTimestamp, growth)
    {
      AdmitLater(cfg, s0, thisTimestamp, growth);

      // grow the shares by the inflation rate to the power of the slice
      var periodSlice := timeDelta / cfg.feePeriod as real;
      assert periodSlice == Slice(cfg, s0, thisTimestamp);
      var sharesScalar := growth(periodSlice);
      mint := fundShares * (sharesScalar - 1.0);
      assert mint == CandidateMint(s0.fundShares, growth(Slice(cfg, s0, thisTimestamp)));

      // skip when the projected fee rate is over the tolerance
      var thisTxFee := TxFee;
      var simDays := thisTimestamp / SecondsPerDay as real;
      usdPerDay := (txFees + thisTxFee) / simDays;
      assert (usdPerDay > cfg.tolerance, usdPerDay) == Throttle(cfg.tolerance, s0.txFees, thisTimestamp);
      skipped := false;
      if usdPerDay > cfg.tolerance {
        skipped := true;
        numSkips := numSkips + 1;
        mint := 0.0;
      } else {
        txFees := txFees + thisTxFee;
        numMints := numMints + 1;
      }
    }

    /** Dilution, valuation, the period summary with its counter reset and
        the commit of the clock (cfm.py, lines 164-189). */
    method Settle(ghost s0: SimState, ghost adv: Advance, ghost ad: Admission,
                  newPeriod: bool, thisPeriod: nat, timeDelta: real, displayTime: real,
                  skipped: bool, usdPerDay: real) returns (rec: TickRecord)
      requires ValidConfig(cfg)
      requires s0.fundShares + ad.mint > 0.0
      requires State() == SimState(adv.time, s0.lastTimestamp, s0.fundShares, s0.earnings,
                                   ad.txFees, ad.numMints, ad.numSkips, ad.mint)
      requires newPeriod == (adv.crossed || s0.lastTimestamp == 0.0)
      requires thisPeriod == adv.thisPeriod
      requires skipped == ad.skipped
      requires usdPerDay == ad.usdPerDay
      requires timeDelta == Delta(cfg, s0, adv.time)
      requires displayTime == if s0.lastTimestamp == 0.0 then s0.lastTimestamp else adv.time
      modifies this`fundShares, this`earnings, this`numMints, this`numSkips, this`lastTimestamp
      ensures (State(), rec) == CfmTick.Settle(cfg, s0, adv, ad)
    {
      ghost var settled := CfmTick.Settle(cfg, s0, adv, ad);
      assert timeDelta == settled.1.delta;

      // the new share count, price, earnings and customer value
      fundShares := fundShares + mint;
      var fundPrice := FundValue / fundShares;
      earnings := earnings + mint * fundPrice;
      var customerValue := fundPrice * CustomerShares;
      assert fundShares == settled.1.fundShares;
      assert fundPrice == settled.1.fundPrice;
      assert earnings == settled.0.earnings;
      assert customerValue == settled.1.customerValue;

      // report the finished period and reset its counters
      var summary := None;
      if newPeriod {
        var ideal := Ideal(cfg, thisPeriod);
        var err := Abs(customerValue - ideal);
        summary := Some(Summary(displayTime, thisPeriod, numMints, numSkips, ideal, err, earnings));
        numMints := 0;
        numSkips := 0;
      }
      assert summary == settled.1.summary;

      if !skipped || newPeriod {
        lastTimestamp := thisTimestamp;
      }
      assert lastTimestamp == settled.0.lastTimestamp;
      rec := TickRecord(thisTimestamp, timeDelta, mint, skipped, newPeriod, fundShares, fundPrice,
                        customerValue, txFees, usdPerDay, summary);
      assert State() == settled.0;
      assert rec == settled.1;
    }

    /** The loop (cfm.py, line 113) over the draws `rs`: it stops once the
        clock passes the horizon or the draws run out. */
    method Run(rs: seq<real>, growth: real -> real) returns (records: seq<TickRecord>)
      requires Valid() && Draws(rs) && PowLaw(cfg.inflationRate, growth)
      modifies this
      ensures Valid()
      ensures (State(), records) == Simulate(cfg, old(State()), rs, growth)
    {
      records := [];
      var i := 0;
      assert rs[i..] == rs;
      assert records + Simulate(cfg, State(), rs, growth).1 == Simulate(cfg, State(), rs, growth).1;
      while i < |rs| && !(thisTimestamp > Horizon(cfg))
        invariant 0 <= i <= |rs|
        invariant Valid() && Draws(rs[i..])
        invariant Simulate(cfg, old(State()), rs, growth)
                  == (Simulate(cfg, State(), rs[i..], growth).0,
                      records + Simulate(cfg, State(), rs[i..], growth).1)
        decreases |rs| - i
      {
        ghost var before := State();
        var rec := Step(rs[i], growth);
        SimulateStep(cfg, before, rs[i..], growth, State(), rec);
        assert rs[i..][1..] == rs[i + 1..];
        ghost var rest := Simulate(cfg, State(), rs[i + 1..], growth);
        assert records + ([rec] + rest.1) == (records + [rec]) + rest.1;
        records := records + [rec];
        i := i + 1;
      }
      assert Simulate(cfg, State(), rs[i..], growth) == (State(), []);
      assert records + [] == records;
    }
  }

  /** The whole program: validate the options, then run the simulation from
      the initial state. An invalid configuration stops it before any tick. */
  method RunProgram(a: Args, rs: seq<real>, growth: real -> real) returns (r: Result<seq<TickRecord>>)
    requires Draws(rs)
    requires Accepted(a) ==> PowLaw(1.0 / (1.0 - a.fee), growth)
    ensures r.Ok? <==> Accepted(a)
    ensures r.Err? ==> r.error == Configure(a).error
    ensures r.Ok? ==> Inv(Configure(a).value, Init())
                      && r.value == Simulate(Configure(a).value, Init(), rs, growth).1
  {
    var c := Configure(a);
    if c.Err? {
      return Err(c.error);
    }
    var engine := new Engine(c.value);
    var records := engine.Run(rs, growth);
    return Ok(records);
  }
}
