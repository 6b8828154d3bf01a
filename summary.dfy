/**
 * The whole summary (class `AdgprsSummary` of AdgprsSummary.py): the
 * shared time axis, the wells in container order, and the field totals
 * summed on demand over the producers or over the injectors.
 */
module Summaries {
  import opened Series
  import opened Accumulation
  import opened Perforations
  import opened Wells

  /** The opened container as far as the summary reads it: the TIMES table
      and the WELL_STATES records, one per well. */
  datatype Container = Container(times: seq<real>, wellStates: seq<WellStates>)

  ghost predicate WellFormedContainer(c: Container)
  {
    forall w :: 0 <= w < |c.wellStates| ==> WellFormed(c.wellStates[w], |c.times|)
  }

  datatype Summary = Summary(time: seq<real>, wells: seq<Well>)
  {
    function NumWells(): nat
    {
      |wells|
    }
  }

  /** Wells that every field aggregate can visit: valid on a time axis of
      `n` steps, each with a first perforation to take a shape from. */
  ghost predicate FieldWells(ws: seq<Well>, n: nat)
  {
    forall k :: 0 <= k < |ws| ==> ValidWell(ws[k]) && |ws[k].time| == n && |ws[k].perforations| >= 1
  }

  /** What the field aggregates rely on: a first well (`wells[0]`), every
      well on the summary's time axis and every well with a first
      perforation. */
  ghost predicate ValidSummary(s: Summary)
  {
    && |s.wells| >= 1
    && FieldWells(s.wells, |s.time|)
    && forall k :: 0 <= k < |s.wells| ==> s.wells[k].time == s.time
  }

  /** `AdgprsSummary.__init__` after the container is open: one well per
      WELL_STATES record, in record order, all on the TIMES axis. */
  method NewSummary(c: Container) returns (s: Summary)
    requires WellFormedContainer(c)
    ensures s.time == c.times && s.NumWells() == |c.wellStates|
    ensures forall w :: 0 <= w < |s.wells| ==>
      BuiltFrom(s.wells[w], c.wellStates[w], c.times) && ValidWell(s.wells[w])
    ensures |c.wellStates| >= 1 &&
            (forall w :: 0 <= w < |c.wellStates| ==> |c.wellStates[w].temperatures[0]| >= 1)
            ==> ValidSummary(s)
  {
    var wells: seq<Well> := [];
    for w := 0 to |c.wellStates|
      invariant |wells| == w
      invariant forall v :: 0 <= v < w ==>
        BuiltFrom(wells[v], c.wellStates[v], c.times) && ValidWell(wells[v])
    {
      var well := NewWell(c.wellStates[w], c.times);
      wells := wells + [well];
    }
    s := Summary(c.times, wells);
  }

  /** What a field aggregate sums per well: a reservoir-condition total
      over perforations, or a surface-condition series of the well. */
  datatype Measure = Reservoir(q: Quantity) | SurfaceRate(phase: Phase) | SurfaceCumulative(phase: Phase)

  function WellSeries(w: Well, m: Measure): (s: seq<real>)
    requires ValidWell(w)
    ensures |s| == |w.time|
  {
    match m
    case Reservoir(q) => Total(w, q)
    case SurfaceRate(ph) =>
      assert IsCumulative(w.CumulativesAtSC(ph), w.time, w.RatesAtSC(ph));
      w.RatesAtSC(ph)
    case SurfaceCumulative(ph) =>
      assert IsCumulative(w.CumulativesAtSC(ph), w.time, w.RatesAtSC(ph));
      w.CumulativesAtSC(ph)
  }

  /** The running field total of one measure over the wells whose
      classification is `injected`. */
  function FieldSum(ws: seq<Well>, m: Measure, injected: bool, n: nat): (s: seq<real>)
    requires FieldWells(ws, n)
    ensures |s| == n
    decreases |ws|
  {
    if ws == [] then Zeros(n)
    else
      var rest := FieldSum(ws[..|ws| - 1], m, injected, n);
      var w := ws[|ws| - 1];
      if IsInjector(w) == injected then Add(rest, WellSeries(w, m)) else rest
  }

  /** The total of one measure over every well, whatever its class. */
  function AllWellsSum(ws: seq<Well>, m: Measure, n: nat): (s: seq<real>)
    requires FieldWells(ws, n)
    ensures |s| == n
    decreases |ws|
  {
    if ws == [] then Zeros(n)
    else Add(AllWellsSum(ws[..|ws| - 1], m, n), WellSeries(ws[|ws| - 1], m))
  }

  /** The wells of one class, in their original order. */
  function Selected(ws: seq<Well>, injected: bool): (r: seq<Well>)
    requires forall k :: 0 <= k < |ws| ==> ValidWell(ws[k]) && |ws[k].perforations| >= 1
    ensures |r| <= |ws|
    decreases |ws|
  {
    if ws == [] then []
    else
      var rest := Selected(ws[..|ws| - 1], injected);
      var w := ws[|ws| - 1];
      if IsInjector(w) == injected then rest + [w] else rest
  }

  /** The field series as the summary exposes them. */
  function FieldSeries(s: Summary, m: Measure, injected: bool): (r: seq<real>)
    requires ValidSummary(s)
    ensures |r| == |s.time|
  {
    FieldSum(s.wells, m, injected, |s.time|)
  }

  /** The fifteen field properties of the summary: production (non-injector
      wells) of the reservoir rates and cumulatives and of the surface
      cumulatives, and injection (injector wells) of the reservoir rates and
      cumulatives. */
  predicate IsFieldProperty(m: Measure, injected: bool)
  {
    match m
    case Reservoir(_) => true
    case SurfaceRate(_) => false
    case SurfaceCumulative(_) => !injected
  }

  /** One well's series of a measure, recomputed as the properties do: a
      reservoir-condition series is summed over the perforations index by
      index, a surface-condition cumulative is the integral of the surface
      rate of the same phase. */
  method WellMeasure(w: Well, m: Measure) returns (s: seq<real>)
    requires ValidWell(w) && |w.perforations| >= 1
    ensures |s| == |w.time|
    ensures m.Reservoir? ==>
      && AllOfLength(w.perforations, m.q, |w.time|)
      && (forall i :: 0 <= i < |w.time| ==> s[i] == SumAt(w.perforations, m.q, i))
    ensures m.SurfaceRate? ==> s == w.RatesAtSC(m.phase)
    ensures m.SurfaceCumulative? ==> s == Accumulate(w.time, w.RatesAtSC(m.phase))
    ensures s == WellSeries(w, m)
  {
    match m
    case Reservoir(q) =>
      s := Aggregate(w, q);
      forall i | 0 <= i < |w.time|
        ensures s[i] == SumAt(w.perforations, q, i)
      {
        TotalAt(w, q, i);
      }
      WellLengths(w, q);
    case SurfaceRate(ph) =>
      s := w.RatesAtSC(ph);
    case SurfaceCumulative(ph) =>
      s := w.CumulativesAtSC(ph);
      CumulativeUnique(s, w.time, w.RatesAtSC(ph));
  }

  /** The field properties of `AdgprsSummary`: zeros shaped like the first
      well's series, then every well of the requested class added in. */
  method FieldAggregate(s: Summary, m: Measure, injected: bool) returns (r: seq<real>)
    requires ValidSummary(s) && IsFieldProperty(m, injected)
    ensures r == FieldSeries(s, m, injected)
  {
    var shape := WellMeasure(s.wells[0], m);
    r := Zeros(|shape|);
    for k := 0 to |s.wells|
      invariant r == FieldSum(s.wells[..k], m, injected, |s.time|)
    {
      FieldSumStep(s.wells, k, m, injected, |s.time|);
      var w := s.wells[k];
      if IsInjector(w) == injected {
        var series := WellMeasure(w, m);
        r := Add(r, series);
      }
    }
    WholePrefix(s.wells);
  }

  lemma FieldSumStep(ws: seq<Well>, k: nat, m: Measure, injected: bool, n: nat)
    requires FieldWells(ws, n) && k < |ws|
    ensures FieldWells(ws[..k], n) && FieldWells(ws[..k + 1], n)
    ensures FieldSum(ws[..k + 1], m, injected, n)
         == if IsInjector(ws[k]) == injected then Add(FieldSum(ws[..k], m, injected, n), WellSeries(ws[k], m))
            else FieldSum(ws[..k], m, injected, n)
  {
    PrefixOfPrefix(ws, k);
  }

  /** Every well is counted exactly once: production plus injection is the
      total over all wells, for every measure. */
  lemma {:induction false} ProductionPlusInjection(ws: seq<Well>, m: Measure, n: nat)
    requires FieldWells(ws, n)
    ensures Add(FieldSum(ws, m, false, n), FieldSum(ws, m, true, n)) == AllWellsSum(ws, m, n)
    decreases |ws|
  {
    if ws != [] {
      var init, w := ws[..|ws| - 1], ws[|ws| - 1];
      ProductionPlusInjection(init, m, n);
      var p, j, a := FieldSum(init, m, false, n), FieldSum(init, m, true, n), AllWellsSum(init, m, n);
      var x := WellSeries(w, m);
      forall i | 0 <= i < n
        ensures Add(FieldSum(ws, m, false, n), FieldSum(ws, m, true, n))[i] == AllWellsSum(ws, m, n)[i]
      {
        assert p[i] + j[i] == a[i];
      }
    }
  }

  /** The wells of one class are field wells of that class. */
  lemma {:induction false} SelectedWells(ws: seq<Well>, injected: bool, n: nat)
    requires FieldWells(ws, n)
    ensures FieldWells(Selected(ws, injected), n)
    ensures forall k :: 0 <= k < |Selected(ws, injected)| ==> IsInjector(Selected(ws, injected)[k]) == injected
    decreases |ws|
  {
    if ws != [] {
      var init, w := ws[..|ws| - 1], ws[|ws| - 1];
      assert FieldWells(init, n);
      SelectedWells(init, injected, n);
      var rest := Selected(init, injected);
      if IsInjector(w) == injected {
        assert Selected(ws, injected) == rest + [w];
      } else {
        assert Selected(ws, injected) == rest;
      }
    }
  }

  /** A field total is the plain total over the wells of its class. */
  lemma {:induction false} FieldSumIsSumOverSelected(ws: seq<Well>, m: Measure, injected: bool, n: nat)
    requires FieldWells(ws, n)
    ensures FieldWells(Selected(ws, injected), n)
    ensures FieldSum(ws, m, injected, n) == AllWellsSum(Selected(ws, injected), m, n)
    decreases |ws|
  {
    SelectedWells(ws, injected, n);
    if ws != [] {
      var init, w := ws[..|ws| - 1], ws[|ws| - 1];
      FieldSumIsSumOverSelected(init, m, injected, n);
      var rest := Selected(init, injected);
      if IsInjector(w) == injected {
        PrefixOfAppend(rest, w);
      }
    }
  }

  /** The two classes split the wells: together they hold every well as
      often as the summary does. */
  lemma {:induction false} SelectedPartition(ws: seq<Well>)
    requires forall k :: 0 <= k < |ws| ==> ValidWell(ws[k]) && |ws[k].perforations| >= 1
    ensures multiset(Selected(ws, false)) + multiset(Selected(ws, true)) == multiset(ws)
    decreases |ws|
  {
    if ws != [] {
      var init, w := ws[..|ws| - 1], ws[|ws| - 1];
      SelectedPartition(init);
      var injector := SelectedStep(ws);
      if injector {
        PartitionStep(ws, Selected(init, false), Selected(init, true), Selected(ws, false), Selected(ws, true));
      } else {
        PartitionStep(ws, Selected(init, true), Selected(init, false), Selected(ws, true), Selected(ws, false));
      }
    }
  }

  /** Adding the last element of `xs` to one side of a split of the other
      elements splits `xs`. */
  lemma PartitionStep<T>(xs: seq<T>, a: seq<T>, b: seq<T>, a': seq<T>, b': seq<T>)
    requires xs != []
    requires multiset(a) + multiset(b) == multiset(xs[..|xs| - 1])
    requires a' == a && b' == b + [xs[|xs| - 1]]
    ensures multiset(a') + multiset(b') == multiset(xs)
  {
    var w := xs[|xs| - 1];
    assert xs == xs[..|xs| - 1] + [w];
    assert multiset(b + [w]) == multiset(b) + multiset{w};
  }

  /** How the last well of a list enters the two classes. */
  lemma SelectedStep(ws: seq<Well>) returns (injector: bool)
    requires ws != []
    requires forall k :: 0 <= k < |ws| ==> ValidWell(ws[k]) && |ws[k].perforations| >= 1
    ensures injector == IsInjector(ws[|ws| - 1])
    ensures Selected(ws, injector) == Selected(ws[..|ws| - 1], injector) + [ws[|ws| - 1]]
    ensures Selected(ws, !injector) == Selected(ws[..|ws| - 1], !injector)
  {
    injector := IsInjector(ws[|ws| - 1]);
  }

  function CumulativeMeasure(ph: Phase, surface: bool): Measure
  {
    if surface then SurfaceCumulative(ph) else Reservoir(Cumulative(ph))
  }

  function RateMeasure(ph: Phase, surface: bool): Measure
  {
    if surface then SurfaceRate(ph) else Reservoir(Rate(ph))
  }

  lemma WellSeriesAccumulated(w: Well, ph: Phase, surface: bool)
    requires ValidWell(w)
    ensures WellSeries(w, CumulativeMeasure(ph, surface)) == Accumulate(w.time, WellSeries(w, RateMeasure(ph, surface)))
  {
    if surface {
      CumulativeUnique(w.CumulativesAtSC(ph), w.time, w.RatesAtSC(ph));
    } else {
      WellCumulativeIsAccumulated(w, ph);
    }
  }

  /** A field cumulative is the integral of the field rate of the same
      phase and condition over the same class of wells: the left-rectangle
      law carries over from perforations to wells to the field. */
  lemma {:induction false} FieldCumulativeIsAccumulated(ws: seq<Well>, t: seq<real>, ph: Phase, surface: bool, injected: bool)
    requires |t| >= 1 && FieldWells(ws, |t|)
    requires forall k :: 0 <= k < |ws| ==> ws[k].time == t
    ensures FieldSum(ws, CumulativeMeasure(ph, surface), injected, |t|)
         == Accumulate(t, FieldSum(ws, RateMeasure(ph, surface), injected, |t|))
    decreases |ws|
  {
    if ws == [] {
      AccumulateZeros(t);
    } else {
      var init, w := ws[..|ws| - 1], ws[|ws| - 1];
      FieldCumulativeIsAccumulated(init, t, ph, surface, injected);
      WellSeriesAccumulated(w, ph, surface);
      AccumulateAdd(t, FieldSum(init, RateMeasure(ph, surface), injected, |t|), WellSeries(w, RateMeasure(ph, surface)));
    }
  }
}
