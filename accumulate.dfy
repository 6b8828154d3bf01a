/**
 * The accumulator of AdgprsSummary.py: a rate series becomes a
 * cumulative-volume series by left-rectangle integration over the time
 * axis. A rate sample is held constant over the interval that follows
 * it, so the last rate sample never contributes.
 */
module Accumulation {
  import opened Series

  /** `accumulate(t, r)`: `np.insert(np.cumsum(np.diff(t) * r[:-1]), 0, 0.0)`.
      With no time steps numpy still inserts the leading zero, so the
      result is `[0.0]`. */
  function Accumulate(t: seq<real>, r: seq<real>): (c: seq<real>)
    requires |t| == |r|
    ensures |c| == if |t| == 0 then 1 else |t|
    ensures c[0] == 0.0
    decreases |t|
  {
    if |t| <= 1 then [0.0]
    else
      var n := |t|;
      var prefix := Accumulate(t[..n - 1], r[..n - 1]);
      prefix + [prefix[n - 2] + (t[n - 1] - t[n - 2]) * r[n - 2]]
  }

  /** The integration law itself, independent of how it is computed:
      same length as the time axis (one element when it is empty), a
      leading zero, and each step adds the interval length times the
      rate at the start of the interval. */
  ghost predicate IsCumulative(c: seq<real>, t: seq<real>, r: seq<real>)
  {
    && |r| == |t|
    && |c| == (if |t| == 0 then 1 else |t|)
    && c[0] == 0.0
    && forall i :: 1 <= i < |t| ==> c[i] == c[i - 1] + (t[i] - t[i - 1]) * r[i - 1]
  }

  /** `accumulate` computes exactly the series that obeys the integration
      law, and it is the only such series. */
  lemma {:induction false} AccumulateCharacterised(c: seq<real>, t: seq<real>, r: seq<real>)
    requires |t| == |r|
    ensures IsCumulative(c, t, r) <==> c == Accumulate(t, r)
    decreases |t|
  {
    AccumulateIsCumulative(t, r);
    if IsCumulative(c, t, r) {
      CumulativeUnique(c, t, r);
    }
  }

  lemma {:induction false} AccumulateIsCumulative(t: seq<real>, r: seq<real>)
    requires |t| == |r|
    ensures IsCumulative(Accumulate(t, r), t, r)
    decreases |t|
  {
    var n := |t|;
    if n > 1 {
      AccumulateIsCumulative(t[..n - 1], r[..n - 1]);
      var c := Accumulate(t, r);
      var prefix := Accumulate(t[..n - 1], r[..n - 1]);
      assert c[..n - 1] == prefix;
      forall i | 1 <= i < n
        ensures c[i] == c[i - 1] + (t[i] - t[i - 1]) * r[i - 1]
      {
        if i < n - 1 {
          assert prefix[i] == prefix[i - 1] + (t[..n - 1][i] - t[..n - 1][i - 1]) * r[..n - 1][i - 1];
        }
      }
    }
  }

  lemma {:induction false} CumulativeUnique(c: seq<real>, t: seq<real>, r: seq<real>)
    requires IsCumulative(c, t, r)
    ensures c == Accumulate(t, r)
    decreases |t|
  {
    var n := |t|;
    if n > 1 {
      var c', t', r' := c[..n - 1], t[..n - 1], r[..n - 1];
      forall i | 1 <= i < n - 1
        ensures c'[i] == c'[i - 1] + (t'[i] - t'[i - 1]) * r'[i - 1]
      {
        assert c[i] == c[i - 1] + (t[i] - t[i - 1]) * r[i - 1];
      }
      CumulativeUnique(c', t', r');
      assert c == c' + [c[n - 1]];
    }
  }

  /** The value of the last rate sample never reaches the cumulative. */
  lemma {:induction false} LastRateUnused(t: seq<real>, r: seq<real>, r': seq<real>)
    requires |t| == |r| == |r'| >= 1
    requires r[..|r| - 1] == r'[..|r'| - 1]
    ensures Accumulate(t, r) == Accumulate(t, r')
  {
    var c := Accumulate(t, r);
    AccumulateIsCumulative(t, r);
    forall i | 1 <= i < |t|
      ensures c[i] == c[i - 1] + (t[i] - t[i - 1]) * r'[i - 1]
    {
      assert r[i - 1] == r[..|r| - 1][i - 1] == r'[..|r'| - 1][i - 1] == r'[i - 1];
    }
    CumulativeUnique(c, t, r');
  }

  /** Accumulation is linear: the cumulative of a summed rate is the sum
      of the cumulatives. This is what lets a well's cumulative (a sum of
      perforation cumulatives) be read as the integral of the well rate. */
  lemma {:induction false} AccumulateAdd(t: seq<real>, a: seq<real>, b: seq<real>)
    requires |t| == |a| == |b|
    ensures Accumulate(t, Add(a, b)) == Add(Accumulate(t, a), Accumulate(t, b))
  {
    var ca, cb := Accumulate(t, a), Accumulate(t, b);
    AccumulateIsCumulative(t, a);
    AccumulateIsCumulative(t, b);
    var c := Add(ca, cb);
    var r := Add(a, b);
    forall i | 1 <= i < |t|
      ensures c[i] == c[i - 1] + (t[i] - t[i - 1]) * r[i - 1]
    {
      var dt := t[i] - t[i - 1];
      assert dt * (a[i - 1] + b[i - 1]) == dt * a[i - 1] + dt * b[i - 1];
    }
    CumulativeUnique(c, t, r);
  }

  /** A zero rate accumulates nothing. */
  lemma {:induction false} AccumulateZeros(t: seq<real>)
    requires |t| >= 1
    ensures Accumulate(t, Zeros(|t|)) == Zeros(|t|)
  {
    CumulativeUnique(Zeros(|t|), t, Zeros(|t|));
  }

  /** On a non-decreasing time axis a non-negative rate gives a
      non-decreasing, non-negative cumulative. */
  lemma {:induction false} AccumulateMonotone(t: seq<real>, r: seq<real>)
    requires |t| == |r|
    requires NonDecreasing(t) && NonNegative(r)
    ensures NonDecreasing(Accumulate(t, r))
    ensures NonNegative(Accumulate(t, r))
  {
    var c := Accumulate(t, r);
    AccumulateIsCumulative(t, r);
    forall j | 1 <= j < |c|
      ensures c[j - 1] <= c[j]
    {
      var dt, rate := t[j] - t[j - 1], r[j - 1];
      assert 0.0 <= dt && 0.0 <= rate;
      assert 0.0 <= dt * rate;
    }
    StepsNonDecreasing(c);
  }

  /** A series that never decreases from one step to the next never
      decreases at all. */
  lemma {:induction false} StepsNonDecreasing(c: seq<real>)
    requires forall j :: 1 <= j < |c| ==> c[j - 1] <= c[j]
    ensures NonDecreasing(c)
  {
    forall i, j | 0 <= i <= j < |c|
      ensures c[i] <= c[j]
    {
      var k := i;
      while k < j
        invariant i <= k <= j
        invariant c[i] <= c[k]
      {
        k := k + 1;
      }
    }
  }

  /** The worked example of TestAdgprsSummary.py. */
  lemma AccumulateExample()
    ensures Accumulate([0.0, 1.0, 3.0, 6.0], [1000.0, 100.0, 10.0, 1.0])
         == [0.0, 1000.0, 1200.0, 1230.0]
  {
    CumulativeUnique([0.0, 1000.0, 1200.0, 1230.0], [0.0, 1.0, 3.0, 6.0], [1000.0, 100.0, 10.0, 1.0]);
  }
}
