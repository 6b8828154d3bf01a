/**
 * One perforation of a well (class `Perforation` of AdgprsSummary.py):
 * six raw series already sliced out of the well tables, plus three
 * cumulatives derived once at construction and never changed.
 */
module Perforations {
  import opened Series
  import opened Accumulation

  datatype Phase = Gas | Oil | Water

  /** The offset of a phase inside a group of three phase-rate columns:
      gas, oil, water. */
  function PhaseIndex(ph: Phase): (k: nat)
    ensures k < 3
  {
    match ph
    case Gas => 0
    case Oil => 1
    case Water => 2
  }

  /** A rate or a cumulative of one phase. */
  datatype Quantity = Rate(phase: Phase) | Cumulative(phase: Phase)

  datatype Perforation = Perforation(
    time: seq<real>,
    pressures: seq<real>,
    gasRates: seq<real>,
    gasCumulative: seq<real>,
    oilRates: seq<real>,
    oilCumulative: seq<real>,
    waterRates: seq<real>,
    waterCumulative: seq<real>,
    temperatures: seq<real>,
    averageDensities: seq<real>)
  {
    function Rates(ph: Phase): seq<real>
    {
      match ph
      case Gas => gasRates
      case Oil => oilRates
      case Water => waterRates
    }

    function Cumulatives(ph: Phase): seq<real>
    {
      match ph
      case Gas => gasCumulative
      case Oil => oilCumulative
      case Water => waterCumulative
    }

    function SeriesOf(q: Quantity): seq<real>
    {
      match q
      case Rate(ph) => Rates(ph)
      case Cumulative(ph) => Cumulatives(ph)
    }
  }

  /** What every perforation of a well on time axis `t` satisfies: its own
      time axis is `t`, its rates are aligned with it, and each cumulative
      is the integral of the rate of the same phase. */
  ghost predicate Valid(p: Perforation, t: seq<real>)
  {
    && p.time == t
    && forall ph :: IsCumulative(p.Cumulatives(ph), t, p.Rates(ph))
  }

  /** `Perforation.__init__`: stores the slices and derives the three
      cumulatives from the shared time axis. */
  function NewPerforation(times: seq<real>, pressures: seq<real>, grat: seq<real>,
                          orat: seq<real>, wrat: seq<real>, temp: seq<real>,
                          dens: seq<real>): (p: Perforation)
    requires |grat| == |times| && |orat| == |times| && |wrat| == |times|
    ensures p.time == times && p.pressures == pressures
    ensures p.gasRates == grat && p.oilRates == orat && p.waterRates == wrat
    ensures p.temperatures == temp && p.averageDensities == dens
    ensures Valid(p, times)
  {
    AccumulateIsCumulative(times, grat);
    AccumulateIsCumulative(times, orat);
    AccumulateIsCumulative(times, wrat);
    Perforation(times, pressures,
                grat, Accumulate(times, grat),
                orat, Accumulate(times, orat),
                wrat, Accumulate(times, wrat),
                temp, dens)
  }

  /** A valid perforation's cumulatives are exactly `accumulate` of its rates. */
  lemma PerforationCumulative(p: Perforation, t: seq<real>, ph: Phase)
    requires Valid(p, t)
    ensures p.Cumulatives(ph) == Accumulate(t, p.Rates(ph))
  {
    AccumulateCharacterised(p.Cumulatives(ph), t, p.Rates(ph));
  }
}
