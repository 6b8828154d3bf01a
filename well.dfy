/**
 * One well of the summary (class `Well` of AdgprsSummary.py): its
 * perforations sliced out of the raw per-well tables, its surface-condition
 * series read from their own table, the reservoir-condition totals summed
 * over perforations on demand, and the injector classification.
 */
module Wells {
  import opened Series
  import opened Accumulation
  import opened Perforations

  /** One raw per-well record of the container, every table row-major with
      one row per time step. */
  datatype WellStates = WellStates(
    phaseRates: seq<seq<real>>,      // vPhaseRates: [gas0, oil0, water0, gas1, oil1, water1, ...]
    phaseRatesAtSC: seq<seq<real>>,  // vPhaseRatesAtSC: [gas, oil, water]
    pressures: seq<seq<real>>,       // vPressures: [bhp, perforation 0, perforation 1, ...]
    temperatures: seq<seq<real>>,    // vTemperatures: one column per perforation
    averageDensity: seq<seq<real>>)  // vAverageDensity: one column per perforation

  /** The container schema for one well on `n` time steps, as far as
      `Well.__init__` relies on it: a first temperature row to count the
      perforations on, every table one row per time step, and every row
      wide enough for the columns that are sliced out of it. */
  ghost predicate WellFormed(raw: WellStates, n: nat)
  {
    && |raw.temperatures| >= 1
    && |raw.phaseRates| == n && |raw.phaseRatesAtSC| == n && |raw.pressures| == n
    && |raw.temperatures| == n && |raw.averageDensity| == n
    && var perforationCount := |raw.temperatures[0]|;
       && MinWidth(raw.phaseRates, 3 * perforationCount)
       && MinWidth(raw.phaseRatesAtSC, 3)
       && MinWidth(raw.pressures, perforationCount + 1)
       && MinWidth(raw.temperatures, perforationCount)
       && MinWidth(raw.averageDensity, perforationCount)
  }

  datatype Well = Well(
    numPerforations: nat,
    bhp: seq<real>,
    time: seq<real>,
    gasRatesAtSC: seq<real>,
    gasCumulativeAtSC: seq<real>,
    oilRatesAtSC: seq<real>,
    oilCumulativeAtSC: seq<real>,
    waterRatesAtSC: seq<real>,
    waterCumulativeAtSC: seq<real>,
    perforations: seq<Perforation>)
  {
    function RatesAtSC(ph: Phase): seq<real>
    {
      match ph
      case Gas => gasRatesAtSC
      case Oil => oilRatesAtSC
      case Water => waterRatesAtSC
    }

    function CumulativesAtSC(ph: Phase): seq<real>
    {
      match ph
      case Gas => gasCumulativeAtSC
      case Oil => oilCumulativeAtSC
      case Water => waterCumulativeAtSC
    }
  }

  /** What holds of every constructed well: at least one time step, one
      BHP value per time step, the perforation count matching the
      perforation list, surface cumulatives integrating the surface rates,
      and every perforation valid on the well's time axis. */
  ghost predicate ValidWell(w: Well)
  {
    && |w.time| >= 1
    && |w.bhp| == |w.time|
    && w.numPerforations == |w.perforations|
    && (forall ph :: IsCumulative(w.CumulativesAtSC(ph), w.time, w.RatesAtSC(ph)))
    && (forall k :: 0 <= k < |w.perforations| ==> Valid(w.perforations[k], w.time))
  }

  /** Perforation `p` holds exactly its slices of the raw tables: phase-rate
      columns `3p`, `3p+1`, `3p+2` for gas, oil and water, pressure column
      `p+1` (column 0 is the BHP), temperature and density column `p`. */
  ghost predicate SlicedFrom(perf: Perforation, raw: WellStates, times: seq<real>, p: nat)
    requires WellFormed(raw, |times|) && p < |raw.temperatures[0]|
  {
    && Valid(perf, times)
    && perf.pressures == Column(raw.pressures, p + 1)
    && (forall ph :: perf.Rates(ph) == Column(raw.phaseRates, 3 * p + PhaseIndex(ph)))
    && perf.temperatures == Column(raw.temperatures, p)
    && perf.averageDensities == Column(raw.averageDensity, p)
  }

  /** The well `Well.__init__` builds from `raw` on time axis `times`. */
  ghost predicate BuiltFrom(w: Well, raw: WellStates, times: seq<real>)
    requires WellFormed(raw, |times|)
  {
    && w.numPerforations == |raw.temperatures[0]|
    && |w.perforations| == w.numPerforations
    && w.time == times
    && w.bhp == Column(raw.pressures, 0)
    && (forall ph :: w.RatesAtSC(ph) == Column(raw.phaseRatesAtSC, PhaseIndex(ph)))
    && (forall ph :: IsCumulative(w.CumulativesAtSC(ph), times, w.RatesAtSC(ph)))
    && (forall p :: 0 <= p < |w.perforations| ==> SlicedFrom(w.perforations[p], raw, times, p))
  }

  /** `Well.__init__`: slices the raw tables column by column and appends
      the perforations in index order. */
  method NewWell(raw: WellStates, times: seq<real>) returns (w: Well)
    requires WellFormed(raw, |times|)
    ensures BuiltFrom(w, raw, times)
    ensures ValidWell(w)
  {
    var numPerforations := |raw.temperatures[0]|;
    var bhp := Column(raw.pressures, 0);
    var gasRatesAtSC := Column(raw.phaseRatesAtSC, 0);
    var gasCumulativeAtSC := Accumulate(times, gasRatesAtSC);
    var oilRatesAtSC := Column(raw.phaseRatesAtSC, 1);
    var oilCumulativeAtSC := Accumulate(times, oilRatesAtSC);
    var waterRatesAtSC := Column(raw.phaseRatesAtSC, 2);
    var waterCumulativeAtSC := Accumulate(times, waterRatesAtSC);
    var perforations := SlicePerforations(raw, times);
    AccumulateIsCumulative(times, gasRatesAtSC);
    AccumulateIsCumulative(times, oilRatesAtSC);
    AccumulateIsCumulative(times, waterRatesAtSC);
    w := Well(numPerforations, bhp, times,
              gasRatesAtSC, gasCumulativeAtSC,
              oilRatesAtSC, oilCumulativeAtSC,
              waterRatesAtSC, waterCumulativeAtSC,
              perforations);
    assert forall ph :: w.RatesAtSC(ph) == Column(raw.phaseRatesAtSC, PhaseIndex(ph));
    assert forall ph :: IsCumulative(w.CumulativesAtSC(ph), times, w.RatesAtSC(ph));
  }

  /** The perforation loop of `Well.__init__`: one perforation per
      temperature column, built from its slices and appended in index order. */
  method SlicePerforations(raw: WellStates, times: seq<real>) returns (perforations: seq<Perforation>)
    requires WellFormed(raw, |times|)
    ensures |perforations| == |raw.temperatures[0]|
    ensures forall p :: 0 <= p < |perforations| ==> SlicedFrom(perforations[p], raw, times, p)
  {
    perforations := [];
    for p := 0 to |raw.temperatures[0]|
      invariant |perforations| == p
      invariant forall q :: 0 <= q < p ==> SlicedFrom(perforations[q], raw, times, q)
    {
      var pGrat := Column(raw.phaseRates, p * 3 + 0);
      var pOrat := Column(raw.phaseRates, p * 3 + 1);
      var pWrat := Column(raw.phaseRates, p * 3 + 2);
      var pPres := Column(raw.pressures, p + 1);
      var pTemp := Column(raw.temperatures, p);
      var pDens := Column(raw.averageDensity, p);
      var perforation := NewPerforation(times, pPres, pGrat, pOrat, pWrat, pTemp, pDens);
      NewPerforationSliced(raw, times, p);
      perforations := perforations + [perforation];
    }
  }

  lemma NewPerforationSliced(raw: WellStates, times: seq<real>, p: nat)
    requires WellFormed(raw, |times|) && p < |raw.temperatures[0]|
    ensures HasColumn(raw.phaseRates, p * 3 + 2) && HasColumn(raw.pressures, p + 1)
    ensures HasColumn(raw.temperatures, p) && HasColumn(raw.averageDensity, p)
    ensures SlicedFrom(NewPerforation(times, Column(raw.pressures, p + 1),
                                      Column(raw.phaseRates, p * 3 + 0),
                                      Column(raw.phaseRates, p * 3 + 1),
                                      Column(raw.phaseRates, p * 3 + 2),
                                      Column(raw.temperatures, p),
                                      Column(raw.averageDensity, p)), raw, times, p)
  {
    var grat, orat, wrat := Column(raw.phaseRates, p * 3 + 0), Column(raw.phaseRates, p * 3 + 1), Column(raw.phaseRates, p * 3 + 2);
    var perf := NewPerforation(times, Column(raw.pressures, p + 1), grat, orat, wrat,
                               Column(raw.temperatures, p), Column(raw.averageDensity, p));
    assert perf.Rates(Gas) == Column(raw.phaseRates, 3 * p + PhaseIndex(Gas));
    assert perf.Rates(Oil) == Column(raw.phaseRates, 3 * p + PhaseIndex(Oil));
    assert perf.Rates(Water) == Column(raw.phaseRates, 3 * p + PhaseIndex(Water));
  }

  /** The raw record determines the well completely: two wells built from
      the same record on the same time axis are equal. */
  lemma BuiltFromUnique(w1: Well, w2: Well, raw: WellStates, times: seq<real>)
    requires WellFormed(raw, |times|)
    requires BuiltFrom(w1, raw, times) && BuiltFrom(w2, raw, times)
    ensures w1 == w2
  {
    forall ph: Phase
      ensures w1.CumulativesAtSC(ph) == w2.CumulativesAtSC(ph)
    {
      CumulativeUnique(w1.CumulativesAtSC(ph), times, w1.RatesAtSC(ph));
      CumulativeUnique(w2.CumulativesAtSC(ph), times, w2.RatesAtSC(ph));
    }
    assert w1.gasRatesAtSC == w1.RatesAtSC(Gas);
    assert w1.oilRatesAtSC == w1.RatesAtSC(Oil);
    assert w1.waterRatesAtSC == w1.RatesAtSC(Water);
    assert w1.gasCumulativeAtSC == w2.CumulativesAtSC(Gas);
    assert w1.oilCumulativeAtSC == w2.CumulativesAtSC(Oil);
    assert w1.waterCumulativeAtSC == w2.CumulativesAtSC(Water);
    forall p | 0 <= p < |w1.perforations|
      ensures w1.perforations[p] == w2.perforations[p]
    {
      SlicedUnique(w1.perforations[p], w2.perforations[p], raw, times, p);
    }
  }

  lemma SlicedUnique(a: Perforation, b: Perforation, raw: WellStates, times: seq<real>, p: nat)
    requires WellFormed(raw, |times|) && p < |raw.temperatures[0]|
    requires SlicedFrom(a, raw, times, p) && SlicedFrom(b, raw, times, p)
    ensures a == b
  {
    forall ph: Phase
      ensures a.Rates(ph) == b.Rates(ph) && a.Cumulatives(ph) == b.Cumulatives(ph)
    {
      PerforationCumulative(a, times, ph);
      PerforationCumulative(b, times, ph);
    }
    assert a.gasRates == b.Rates(Gas) && a.gasCumulative == b.Cumulatives(Gas);
    assert a.oilRates == b.Rates(Oil) && a.oilCumulative == b.Cumulatives(Oil);
    assert a.waterRates == b.Rates(Water) && a.waterCumulative == b.Cumulatives(Water);
  }

  /** Every series of a perforation on `t` has one value per time step. */
  lemma SeriesLength(perf: Perforation, t: seq<real>, q: Quantity)
    requires Valid(perf, t) && |t| >= 1
    ensures |perf.SeriesOf(q)| == |t|
  {
    assert IsCumulative(perf.Cumulatives(q.phase), t, perf.Rates(q.phase));
  }

  ghost predicate AllOfLength(ps: seq<Perforation>, q: Quantity, n: nat)
  {
    forall k :: 0 <= k < |ps| ==> |ps[k].SeriesOf(q)| == n
  }

  /** The running sum of one quantity over a list of perforations: the
      `np.zeros` start and the `+=` of each aggregate property. */
  function SumPerforations(ps: seq<Perforation>, q: Quantity, n: nat): (s: seq<real>)
    requires AllOfLength(ps, q, n)
    ensures |s| == n
    decreases |ps|
  {
    if ps == [] then Zeros(n)
    else Add(SumPerforations(ps[..|ps| - 1], q, n), ps[|ps| - 1].SeriesOf(q))
  }

  /** The sum over perforations of one quantity at time index `i`. */
  function SumAt(ps: seq<Perforation>, q: Quantity, i: nat): real
    requires forall k :: 0 <= k < |ps| ==> i < |ps[k].SeriesOf(q)|
    decreases |ps|
  {
    if ps == [] then 0.0
    else SumAt(ps[..|ps| - 1], q, i) + ps[|ps| - 1].SeriesOf(q)[i]
  }

  lemma WellLengths(w: Well, q: Quantity)
    requires ValidWell(w)
    ensures AllOfLength(w.perforations, q, |w.time|)
  {
    forall k | 0 <= k < |w.perforations|
      ensures |w.perforations[k].SeriesOf(q)| == |w.time|
    {
      SeriesLength(w.perforations[k], w.time, q);
    }
  }

  /** A well's reservoir-condition rate or cumulative: the elementwise sum
      over its perforations (`Well.vec_gas_rates` and its five siblings). */
  function Total(w: Well, q: Quantity): (s: seq<real>)
    requires ValidWell(w)
    ensures |s| == |w.time|
  {
    WellLengths(w, q);
    SumPerforations(w.perforations, q, |w.time|)
  }

  /** The six aggregate properties of `Well`: start from zeros shaped like
      the first perforation's series and add every perforation in turn. */
  method Aggregate(w: Well, q: Quantity) returns (s: seq<real>)
    requires ValidWell(w) && |w.perforations| >= 1
    ensures s == Total(w, q)
  {
    WellLengths(w, q);
    var ps := w.perforations;
    s := Zeros(|ps[0].SeriesOf(q)|);
    for k := 0 to |ps|
      invariant s == SumPerforations(ps[..k], q, |w.time|)
    {
      SumPerforationsStep(ps, k, q, |w.time|);
      s := Add(s, ps[k].SeriesOf(q));
    }
    WholePrefix(ps);
  }

  lemma SumPerforationsStep(ps: seq<Perforation>, k: nat, q: Quantity, n: nat)
    requires AllOfLength(ps, q, n) && k < |ps|
    ensures AllOfLength(ps[..k], q, n) && AllOfLength(ps[..k + 1], q, n)
    ensures SumPerforations(ps[..k + 1], q, n) == Add(SumPerforations(ps[..k], q, n), ps[k].SeriesOf(q))
  {
    PrefixOfPrefix(ps, k);
  }

  /** At every time index the well total is the sum of the perforations'
      values at that index. */
  lemma {:induction false} TotalAt(w: Well, q: Quantity, i: nat)
    requires ValidWell(w) && i < |w.time|
    ensures AllOfLength(w.perforations, q, |w.time|)
    ensures Total(w, q)[i] == SumAt(w.perforations, q, i)
  {
    WellLengths(w, q);
    SumPerforationsAt(w.perforations, q, |w.time|, i);
  }

  lemma {:induction false} SumPerforationsAt(ps: seq<Perforation>, q: Quantity, n: nat, i: nat)
    requires AllOfLength(ps, q, n) && i < n
    ensures SumPerforations(ps, q, n)[i] == SumAt(ps, q, i)
    decreases |ps|
  {
    if ps != [] {
      SumPerforationsAt(ps[..|ps| - 1], q, n, i);
    }
  }

  /** `Well.is_injector`: the last reservoir-condition water or gas
      cumulative is below -1; oil is not looked at. */
  predicate IsInjector(w: Well)
    requires ValidWell(w) && |w.perforations| >= 1
    ensures AllOfLength(w.perforations, Cumulative(Water), |w.time|)
    ensures AllOfLength(w.perforations, Cumulative(Gas), |w.time|)
    ensures IsInjector(w) <==>
      (SumAt(w.perforations, Cumulative(Water), |w.time| - 1) < -1.0 ||
       SumAt(w.perforations, Cumulative(Gas), |w.time| - 1) < -1.0)
  {
    TotalAt(w, Cumulative(Water), |w.time| - 1);
    TotalAt(w, Cumulative(Gas), |w.time| - 1);
    Last(Total(w, Cumulative(Water))) < -1.0 || Last(Total(w, Cumulative(Gas))) < -1.0
  }

  /** The well cumulative of a phase is the integral of the well rate of
      that phase: summing perforation cumulatives and accumulating the
      summed rate agree. */
  lemma WellCumulativeIsAccumulated(w: Well, ph: Phase)
    requires ValidWell(w)
    ensures Total(w, Cumulative(ph)) == Accumulate(w.time, Total(w, Rate(ph)))
  {
    WellLengths(w, Cumulative(ph));
    WellLengths(w, Rate(ph));
    SumCumulativeIsAccumulated(w.perforations, w.time, ph);
  }

  lemma {:induction false} SumCumulativeIsAccumulated(ps: seq<Perforation>, t: seq<real>, ph: Phase)
    requires |t| >= 1
    requires forall k :: 0 <= k < |ps| ==> Valid(ps[k], t)
    requires AllOfLength(ps, Cumulative(ph), |t|) && AllOfLength(ps, Rate(ph), |t|)
    ensures SumPerforations(ps, Cumulative(ph), |t|) == Accumulate(t, SumPerforations(ps, Rate(ph), |t|))
    decreases |ps|
  {
    var n := |t|;
    if ps == [] {
      AccumulateZeros(t);
    } else {
      var init, last := ps[..|ps| - 1], ps[|ps| - 1];
      SumCumulativeIsAccumulated(init, t, ph);
      PerforationCumulative(last, t, ph);
      AccumulateAdd(t, SumPerforations(init, Rate(ph), n), last.Rates(ph));
    }
  }

  /** The classification restated on the well rates: a well is an injector
      exactly when integrating its water or its gas rate over the whole
      time axis ends below -1. */
  lemma InjectorByWellRates(w: Well)
    requires ValidWell(w) && |w.perforations| >= 1
    ensures IsInjector(w) <==>
      (Last(Accumulate(w.time, Total(w, Rate(Water)))) < -1.0 ||
       Last(Accumulate(w.time, Total(w, Rate(Gas)))) < -1.0)
  {
    WellCumulativeIsAccumulated(w, Water);
    WellCumulativeIsAccumulated(w, Gas);
  }

  /** Oil never enters the classification: two wells on the same time axis
      whose perforations agree on the gas and water cumulatives are
      classified alike, whatever their oil series. */
  lemma InjectorIgnoresOil(w1: Well, w2: Well)
    requires ValidWell(w1) && |w1.perforations| >= 1
    requires ValidWell(w2) && |w2.perforations| >= 1
    requires w1.time == w2.time && |w1.perforations| == |w2.perforations|
    requires forall k :: 0 <= k < |w1.perforations| ==>
      w1.perforations[k].gasCumulative == w2.perforations[k].gasCumulative &&
      w1.perforations[k].waterCumulative == w2.perforations[k].waterCumulative
    ensures IsInjector(w1) == IsInjector(w2)
  {
    WellLengths(w1, Cumulative(Gas));
    WellLengths(w2, Cumulative(Gas));
    WellLengths(w1, Cumulative(Water));
    WellLengths(w2, Cumulative(Water));
    SumCongruent(w1.perforations, w2.perforations, Cumulative(Gas), |w1.time|);
    SumCongruent(w1.perforations, w2.perforations, Cumulative(Water), |w1.time|);
  }

  lemma {:induction false} SumCongruent(ps1: seq<Perforation>, ps2: seq<Perforation>, q: Quantity, n: nat)
    requires |ps1| == |ps2|
    requires AllOfLength(ps1, q, n) && AllOfLength(ps2, q, n)
    requires forall k :: 0 <= k < |ps1| ==> ps1[k].SeriesOf(q) == ps2[k].SeriesOf(q)
    ensures SumPerforations(ps1, q, n) == SumPerforations(ps2, q, n)
    decreases |ps1|
  {
    if ps1 != [] {
      SumCongruent(ps1[..|ps1| - 1], ps2[..|ps2| - 1], q, n);
    }
  }

  /** On a non-decreasing time axis, a well whose perforations never report
      a negative gas or water rate is a producer. */
  lemma ProducerWhenRatesNonNegative(w: Well)
    requires ValidWell(w) && |w.perforations| >= 1
    requires NonDecreasing(w.time)
    requires forall k :: 0 <= k < |w.perforations| ==>
      NonNegative(w.perforations[k].gasRates) && NonNegative(w.perforations[k].waterRates)
    ensures !IsInjector(w)
  {
    forall ph | ph != Oil
      ensures 0.0 <= Last(Total(w, Cumulative(ph)))
    {
      WellLengths(w, Rate(ph));
      SumNonNegative(w.perforations, ph, |w.time|);
      WellCumulativeIsAccumulated(w, ph);
      AccumulateMonotone(w.time, Total(w, Rate(ph)));
    }
  }

  lemma {:induction false} SumNonNegative(ps: seq<Perforation>, ph: Phase, n: nat)
    requires AllOfLength(ps, Rate(ph), n)
    requires forall k :: 0 <= k < |ps| ==> NonNegative(ps[k].Rates(ph))
    ensures NonNegative(SumPerforations(ps, Rate(ph), n))
    decreases |ps|
  {
    if ps != [] {
      SumNonNegative(ps[..|ps| - 1], ph, n);
    }
  }
}
