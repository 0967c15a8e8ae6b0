/** One-pass sliding windows against their direct definitions: rolling volatility, moving average, RSI. */
module Windows {
  import opened Schemas

  function Sum(xs: seq<real>): real {
    if xs == [] then 0.0 else Sum(xs[..|xs| - 1]) + xs[|xs| - 1]
  }

  function SumSquares(xs: seq<real>): real {
    if xs == [] then 0.0 else SumSquares(xs[..|xs| - 1]) + xs[|xs| - 1] * xs[|xs| - 1]
  }

  /** Sum of squared deviations from m. */
  function Deviations(xs: seq<real>, m: real): real {
    if xs == [] then 0.0
    else Deviations(xs[..|xs| - 1], m) + (xs[|xs| - 1] - m) * (xs[|xs| - 1] - m)
  }

  lemma {:induction false} SumFront(xs: seq<real>)
    requires xs != []
    ensures Sum(xs) == xs[0] + Sum(xs[1..])
    ensures SumSquares(xs) == xs[0] * xs[0] + SumSquares(xs[1..])
  {
    if |xs| == 1 {
      assert xs[..0] == [] && xs[1..] == [];
    } else {
      var front := xs[..|xs| - 1];
      SumFront(front);
      assert front[1..] == xs[1..][..|xs| - 2];
    }
  }

  /** Moving a window one place to the right adds what enters and takes off what leaves. */
  lemma WindowSlides(xs: seq<real>, i: nat, w: nat)
    requires w >= 1 && i + w < |xs|
    ensures Sum(xs[i + 1..i + 1 + w]) == Sum(xs[i..i + w]) + (xs[i + w] - xs[i])
    ensures SumSquares(xs[i + 1..i + 1 + w]) == SumSquares(xs[i..i + w]) + (xs[i + w] * xs[i + w] - xs[i] * xs[i])
  {
    var both := xs[i..i + 1 + w];
    SumFront(both);
    assert both[1..] == xs[i + 1..i + 1 + w];
    assert both[..w] == xs[i..i + w];
  }

  // ---- moving average -------------------------------------------------

  /** The simple moving average by one running sum; None for a period below one. */
  method Sma(values: seq<real>, period: int) returns (result: Option<seq<Option<real>>>)
    ensures result.Some? <==> period >= 1
    ensures result.Some? ==>
      && |result.value| == |values|
      && forall i :: 0 <= i < |values| ==>
           result.value[i] == if i + 1 < period then None
                              else Some(Sum(values[i + 1 - period..i + 1]) / period as real)
  {
    if period < 1 {
      return None;
    }
    var n := |values|;
    var out: seq<Option<real>> := seq(n, i => None);
    if n < period {
      return Some(out);
    }
    var sum := Total(values[..period]);
    out := out[period - 1 := Some(sum / period as real)];
    assert values[0..period] == values[..period];
    var i := period;
    while i < n
      invariant period <= i <= n && |out| == n
      invariant sum == Sum(values[i - period..i])
      invariant forall k :: 0 <= k < n ==>
        out[k] == if k + 1 < period || k >= i then None
                  else Some(Sum(values[k + 1 - period..k + 1]) / period as real)
    {
      WindowSlides(values, i - period, period);
      sum := sum + (values[i] - values[i - period]);
      out := out[i := Some(sum / period as real)];
      i := i + 1;
    }
    return Some(out);
  }

  method Total(xs: seq<real>) returns (sum: real)
    ensures sum == Sum(xs)
  {
    sum := 0.0;
    var i := 0;
    while i < |xs|
      invariant 0 <= i <= |xs| && sum == Sum(xs[..i])
    {
      assert xs[..i + 1][..i] == xs[..i];
      sum := sum + xs[i];
      i := i + 1;
    }
    assert xs[..i] == xs;
  }

  method TotalSquares(xs: seq<real>) returns (sum: real)
    ensures sum == SumSquares(xs)
  {
    sum := 0.0;
    var i := 0;
    while i < |xs|
      invariant 0 <= i <= |xs| && sum == SumSquares(xs[..i])
    {
      assert xs[..i + 1][..i] == xs[..i];
      sum := sum + xs[i] * xs[i];
      i := i + 1;
    }
    assert xs[..i] == xs;
  }

  // ---- volatility -----------------------------------------------------

  /** Logarithm and square root are left uninterpreted: any functions will do. */
  datatype Maths = Maths(log: real -> real, sqrt: real -> real)

  /** Log return of bar i over bar i - 1, zero when either price is not positive. */
  function LogReturn(f: Maths, closes: seq<real>, i: nat): real
    requires 1 <= i < |closes|
  {
    if closes[i - 1] > 0.0 && closes[i] > 0.0 then f.log(closes[i] / closes[i - 1]) else 0.0
  }

  function LogReturns(f: Maths, closes: seq<real>): (rs: seq<real>)
    requires closes != []
    ensures |rs| == |closes| - 1 && forall i :: 0 <= i < |rs| ==> rs[i] == LogReturn(f, closes, i + 1)
  {
    seq(|closes| - 1, i requires 0 <= i < |closes| - 1 => LogReturn(f, closes, i + 1))
  }

  function Annualised(f: Maths, variance: real): real {
    f.sqrt(variance) * f.sqrt(365.0)
  }

  /** The one-pass estimate from a sum and a sum of squares. */
  function Estimate(f: Maths, sum: real, squares: real, window: nat): real
    requires window >= 2
  {
    Annualised(f, Max(0.0, RawVariance(sum, squares, window)))
  }

  function RawVariance(sum: real, squares: real, window: nat): real
    requires window >= 2
  {
    var mean := sum / window as real;
    (squares - window as real * mean * mean) / (window as real - 1.0)
  }

  function EstimateAt(f: Maths, closes: seq<real>, window: nat, i: nat): real
    requires 2 <= window <= i < |closes|
  {
    var rs := LogReturns(f, closes)[i - window..i];
    Estimate(f, Sum(rs), SumSquares(rs), window)
  }

  /** The series is filled in for the bars before `upTo`. */
  predicate FilledIn(f: Maths, closes: seq<real>, window: nat, out: seq<Option<real>>, upTo: nat)
    requires window >= 2
  {
    && |out| == |closes|
    && forall i :: 0 <= i < |closes| ==>
         out[i] == if i < window || i >= upTo then None else Some(EstimateAt(f, closes, window, i))
  }

  method Fill(f: Maths, closes: seq<real>, window: nat, out: seq<Option<real>>, i: nat, total: real, squares: real)
    returns (out': seq<Option<real>>)
    requires 2 <= window <= i < |closes| && FilledIn(f, closes, window, out, i)
    requires var rs := LogReturns(f, closes)[i - window..i]; total == Sum(rs) && squares == SumSquares(rs)
    ensures FilledIn(f, closes, window, out', i + 1)
  {
    out' := out[i := Some(Estimate(f, total, squares, window))];
  }

  /** Realised volatility at every bar in one pass over running sums. */
  method RollingVolatility(f: Maths, closes: seq<real>, window: nat) returns (out: seq<Option<real>>)
    ensures |out| == |closes|
    ensures forall i :: 0 <= i < |closes| ==>
      out[i] == if window < 2 || i < window then None else Some(EstimateAt(f, closes, window, i))
  {
    var n := |closes|;
    out := seq(n, i => None);
    if n < window + 1 || window < 2 {
      return;
    }
    var rs := LogReturns(f, closes);
    assert rs[0..window] == rs[..window];
    var total := Total(rs[..window]);
    var squares := TotalSquares(rs[..window]);
    out := Fill(f, closes, window, out, window, total, squares);
    var i := window;
    while i < |rs|
      invariant window <= i <= |rs|
      invariant total == Sum(rs[i - window..i]) && squares == SumSquares(rs[i - window..i])
      invariant FilledIn(f, closes, window, out, i + 1)
    {
      total, squares := Slide(rs, i, window, total, squares);
      i := i + 1;
      out := Fill(f, closes, window, out, i, total, squares);
    }
  }

  method Slide(rs: seq<real>, i: nat, window: nat, total: real, squares: real) returns (total': real, squares': real)
    requires 1 <= window <= i < |rs|
    requires total == Sum(rs[i - window..i]) && squares == SumSquares(rs[i - window..i])
    ensures total' == Sum(rs[i + 1 - window..i + 1]) && squares' == SumSquares(rs[i + 1 - window..i + 1])
  {
    WindowSlides(rs, i - window, window);
    var entering, leaving := rs[i], rs[i - window];
    total' := total + (entering - leaving);
    squares' := squares + (entering * entering - leaving * leaving);
  }

  /** Log returns of the last `window` bars, skipping bars without two positive prices. */
  function DefinedReturns(f: Maths, closes: seq<real>, from: nat): seq<real>
    requires 1 <= from <= |closes|
    decreases |closes| - from
  {
    if from == |closes| then []
    else
      (if closes[from - 1] > 0.0 && closes[from] > 0.0 then [f.log(closes[from] / closes[from - 1])] else [])
      + DefinedReturns(f, closes, from + 1)
  }

  /** The two-pass form: mean first, then squared deviations from it. */
  function RealizedVolatility(f: Maths, closes: seq<real>, window: nat): Option<real> {
    if |closes| < window + 1 then None
    else
      var rs := DefinedReturns(f, closes, |closes| - window);
      if |rs| < 2 then None
      else
        var mean := Sum(rs) / |rs| as real;
        Some(Annualised(f, Deviations(rs, mean) / (|rs| as real - 1.0)))
  }

  /** The running figures of a window. */
  datatype Moments = Moments(n: real, sum: real, squares: real, deviations: real)
  {
    predicate Expand(m: real) {
      deviations == squares - 2.0 * m * sum + n * (m * m) && deviations >= 0.0
    }

    function With(x: real, m: real): Moments {
      Moments(n + 1.0, sum + x, squares + x * x, deviations + (x - m) * (x - m))
    }
  }

  function MomentsOf(xs: seq<real>, m: real): (r: Moments)
    ensures r == Moments(|xs| as real, Sum(xs), SumSquares(xs), Deviations(xs, m))
  {
    if xs == [] then Moments(0.0, 0.0, 0.0, 0.0)
    else MomentsOf(xs[..|xs| - 1], m).With(xs[|xs| - 1], m)
  }

  lemma {:induction false} DeviationsExpand(xs: seq<real>, m: real, r: Moments)
    requires r == MomentsOf(xs, m)
    ensures r.Expand(m)
    decreases |xs|
  {
    if xs != [] {
      var before := MomentsOf(xs[..|xs| - 1], m);
      DeviationsExpand(xs[..|xs| - 1], m, before);
      ExpandStep(before, m, xs[|xs| - 1]);
    }
  }

  lemma SquareExpands(x: real, m: real, term: real)
    requires term == (x - m) * (x - m)
    ensures term == x * x - 2.0 * m * x + m * m && term >= 0.0
  {
  }

  lemma ExpandStep(r: Moments, m: real, x: real)
    requires r.Expand(m)
    ensures r.With(x, m).Expand(m)
  {
    var term := (x - m) * (x - m);
    SquareExpands(x, m, term);
    assert 2.0 * m * (r.sum + x) == 2.0 * m * r.sum + 2.0 * m * x;
    assert (r.n + 1.0) * (m * m) == r.n * (m * m) + m * m;
  }

  lemma AtTheMean(r: Moments, m: real)
    requires r.n > 0.0 && m == r.sum / r.n && r.Expand(m)
    ensures r.deviations == r.squares - r.n * m * m && r.deviations >= 0.0
  {
    assert m * r.n == r.sum;
    assert m * r.sum == r.n * (m * m);
    assert r.n * m * m == r.n * (m * m);
  }

  lemma VarianceOfMoments(r: Moments, m: real, window: nat)
    requires window >= 2 && r.n == window as real && m == r.sum / r.n && r.Expand(m)
    ensures RawVariance(r.sum, r.squares, window) == r.deviations / (window as real - 1.0)
    ensures r.deviations / (window as real - 1.0) >= 0.0
  {
    AtTheMean(r, m);
    RatioIsNonNegative(r.deviations, window as real - 1.0);
  }

  /** The one-pass variance is the two-pass one, so it is never negative and the clamp at zero never acts. */
  lemma VarianceFormsAgree(rs: seq<real>)
    requires |rs| >= 2
    ensures var w := |rs|; var raw := RawVariance(Sum(rs), SumSquares(rs), w);
      && raw == Deviations(rs, Sum(rs) / w as real) / (w as real - 1.0)
      && raw >= 0.0 && Max(0.0, raw) == raw
  {
    var m := Sum(rs) / |rs| as real;
    var r := MomentsOf(rs, m);
    DeviationsExpand(rs, m, r);
    VarianceOfMoments(r, m, |rs|);
  }

  predicate Positive(closes: seq<real>) {
    forall i :: 0 <= i < |closes| ==> closes[i] > 0.0
  }

  lemma {:induction false} NothingSkipped(f: Maths, closes: seq<real>, from: nat)
    requires Positive(closes) && 1 <= from <= |closes|
    ensures DefinedReturns(f, closes, from) == LogReturns(f, closes)[from - 1..]
    decreases |closes| - from
  {
    if from < |closes| {
      NothingSkipped(f, closes, from + 1);
      var rs := LogReturns(f, closes);
      assert rs[from - 1..] == [rs[from - 1]] + rs[from..];
    }
  }

  /** Main result: on positive prices the one-pass series equals the two-pass estimate of the same
      window at every bar, for every window length and whatever log and square root are. */
  lemma RollingEqualsDirect(f: Maths, closes: seq<real>, window: nat, i: nat)
    requires Positive(closes) && i < |closes|
    ensures RealizedVolatility(f, closes[..i + 1], window)
            == if window < 2 || i < window then None else Some(EstimateAt(f, closes, window, i))
  {
    var seen := closes[..i + 1];
    if i >= window {
      NothingSkipped(f, seen, |seen| - window);
      var rs := LogReturns(f, closes)[i - window..i];
      assert LogReturns(f, seen)[|seen| - window - 1..] == rs;
      if window >= 2 {
        VarianceFormsAgree(rs);
      }
    }
  }

  /** A square root on the non-negative numbers. */
  ghost predicate TakesRoots(f: Maths) {
    forall x :: x >= 0.0 ==> f.sqrt(x) * f.sqrt(x) == x
  }

  lemma {:induction false} DeviationsAreNonNegative(xs: seq<real>, m: real)
    ensures Deviations(xs, m) >= 0.0
  {
    if xs != [] {
      DeviationsAreNonNegative(xs[..|xs| - 1], m);
      SquareIsNonNegative(xs[|xs| - 1] - m);
    }
  }

  lemma SquareIsNonNegative(x: real)
    ensures x * x >= 0.0
  {
  }

  lemma AnnualisedSquare(a: real, b: real, variance: real, n: real, deviations: real)
    requires a * a == variance && b * b == 365.0 && n > 0.0 && variance == deviations / n
    ensures (a * b) * (a * b) * n == 365.0 * deviations
  {
    assert (a * b) * (a * b) == (a * a) * (b * b);
    assert variance * n == deviations;
  }

  /** What the one-pass figure of a window is, for a true square root: its square is 365 times the sample variance of
      the window's returns about their mean. */
  lemma EstimateIsAnnualVariance(f: Maths, closes: seq<real>, window: nat, i: nat)
    requires TakesRoots(f) && 2 <= window <= i < |closes|
    ensures var rs := LogReturns(f, closes)[i - window..i]; var v := EstimateAt(f, closes, window, i);
      v * v * (window as real - 1.0) == 365.0 * Deviations(rs, Sum(rs) / window as real)
  {
    var rs := LogReturns(f, closes)[i - window..i];
    var mean := Sum(rs) / window as real;
    var n := window as real - 1.0;
    VarianceFormsAgree(rs);
    DeviationsAreNonNegative(rs, mean);
    var variance := Max(0.0, RawVariance(Sum(rs), SumSquares(rs), window));
    VarianceOf(Deviations(rs, mean), n);
    assert variance == Deviations(rs, mean) / n;
    AnnualisedSquare(f.sqrt(variance), f.sqrt(365.0), variance, n, Deviations(rs, mean));
  }

  lemma VarianceOf(deviations: real, n: real)
    requires deviations >= 0.0 && n > 0.0
    ensures deviations / n >= 0.0
  {
  }

  // ---- relative strength ----------------------------------------------

  /** RSI from Wilder's averages, with the zero-loss case. */
  function RsiFrom(gain: real, loss: real): real
    requires gain >= 0.0 && loss >= 0.0
  {
    if loss == 0.0 then (if gain > 0.0 then 100.0 else 50.0)
    else
      RatioIsNonNegative(gain, loss);
      100.0 - 100.0 / (1.0 + gain / loss)
  }

  lemma RatioIsNonNegative(a: real, b: real)
    requires a >= 0.0 && b > 0.0
    ensures a / b >= 0.0
  {
  }

  function Gain(values: seq<real>, i: nat): real
    requires 1 <= i < |values|
  {
    Max(values[i] - values[i - 1], 0.0)
  }

  function Loss(values: seq<real>, i: nat): real
    requires 1 <= i < |values|
  {
    Max(-(values[i] - values[i - 1]), 0.0)
  }

  function Gains(values: seq<real>, n: nat): (r: real)
    requires n < |values|
    ensures r >= 0.0
  {
    if n == 0 then 0.0 else Gains(values, n - 1) + Gain(values, n)
  }

  function Losses(values: seq<real>, n: nat): (r: real)
    requires n < |values|
    ensures r >= 0.0
  {
    if n == 0 then 0.0 else Losses(values, n - 1) + Loss(values, n)
  }

  function Smoothed(average: real, next: real, period: nat): real
    requires period >= 1
  {
    (average * (period as real - 1.0) + next) / period as real
  }

  lemma SmoothedIsNonNegative(average: real, next: real, period: nat)
    requires period >= 1 && average >= 0.0 && next >= 0.0
    ensures Smoothed(average, next, period) >= 0.0
  {
    assert average * (period as real - 1.0) >= 0.0;
    RatioIsNonNegative(average * (period as real - 1.0) + next, period as real);
  }

  /** Wilder's averages of gains and losses at bar i. */
  function Averages(values: seq<real>, period: nat, i: nat): (r: (real, real))
    requires 1 <= period <= i < |values|
    ensures r.0 >= 0.0 && r.1 >= 0.0
    decreases i
  {
    if i == period then
      RatioIsNonNegative(Gains(values, period), period as real);
      RatioIsNonNegative(Losses(values, period), period as real);
      (Gains(values, period) / period as real, Losses(values, period) / period as real)
    else
      var before := Averages(values, period, i - 1);
      SmoothedIsNonNegative(before.0, Gain(values, i), period);
      SmoothedIsNonNegative(before.1, Loss(values, i), period);
      (Smoothed(before.0, Gain(values, i), period), Smoothed(before.1, Loss(values, i), period))
  }

  function RsiAt(values: seq<real>, period: nat, i: nat): real
    requires 1 <= period <= i < |values|
  {
    var (gain, loss) := Averages(values, period, i);
    RsiFrom(gain, loss)
  }

  /** A change is a gain or a loss, never both. */
  lemma ChangeIsGainOrLoss(values: seq<real>, i: nat)
    requires 1 <= i < |values|
    ensures Gain(values, i) - Loss(values, i) == values[i] - values[i - 1]
    ensures Gain(values, i) >= 0.0 && Loss(values, i) >= 0.0 && (Gain(values, i) == 0.0 || Loss(values, i) == 0.0)
  {
  }

  /** Gains less losses of the first n changes telescope to the net change. */
  lemma {:induction false} GainsLessLosses(values: seq<real>, n: nat)
    requires n < |values|
    ensures Gains(values, n) - Losses(values, n) == values[n] - values[0]
  {
    if n > 0 {
      GainsLessLosses(values, n - 1);
      ChangeIsGainOrLoss(values, n);
    }
  }

  /** A smoothed average: all but one share of the period stays with the average before. */
  predicate Smooths(before: real, next: real, period: nat, after: real) {
    after * period as real == before * (period as real - 1.0) + next
  }

  lemma SmoothedSmooths(average: real, next: real, period: nat)
    requires period >= 1
    ensures Smooths(average, next, period, Smoothed(average, next, period))
  {
  }

  lemma AverageOf(total: real, n: nat)
    requires n >= 1
    ensures total / n as real * n as real == total
  {
  }

  /** Wilder's averages: the mean gain and loss of the first period, then each change smoothed in. */
  lemma AveragesAreWilders(values: seq<real>, period: nat, i: nat)
    requires 1 <= period <= i < |values|
    ensures i == period ==>
              && Averages(values, period, i).0 * period as real == Gains(values, period)
              && Averages(values, period, i).1 * period as real == Losses(values, period)
    ensures i > period ==>
              && Smooths(Averages(values, period, i - 1).0, Gain(values, i), period, Averages(values, period, i).0)
              && Smooths(Averages(values, period, i - 1).1, Loss(values, i), period, Averages(values, period, i).1)
  {
    if i == period {
      AverageOf(Gains(values, period), period);
      AverageOf(Losses(values, period), period);
    } else {
      SmoothedSmooths(Averages(values, period, i - 1).0, Gain(values, i), period);
      SmoothedSmooths(Averages(values, period, i - 1).1, Loss(values, i), period);
    }
  }

  lemma ShareOfGains(gain: real, loss: real)
    requires gain >= 0.0 && loss >= 0.0
    ensures RsiFrom(gain, loss) * (gain + loss) == 100.0 * gain
    ensures gain + loss == 0.0 ==> RsiFrom(gain, loss) == 50.0
  {
    if loss > 0.0 {
      var ratio, index := gain / loss, RsiFrom(gain, loss);
      RatioIsNonNegative(gain, loss);
      assert ratio * loss == gain;
      var rest := 100.0 / (1.0 + ratio);
      assert rest * (1.0 + ratio) == 100.0;
      RestTimesSum(rest, ratio, gain, loss);
    }
  }

  lemma RestTimesSum(rest: real, ratio: real, gain: real, loss: real)
    requires rest * (1.0 + ratio) == 100.0 && ratio * loss == gain
    ensures (100.0 - rest) * (gain + loss) == 100.0 * gain
  {
    assert gain + loss == (1.0 + ratio) * loss;
    assert rest * (gain + loss) == rest * (1.0 + ratio) * loss;
  }

  /** The index is the gains' share, in percent, of average gain and loss together; 50 when nothing moved. */
  lemma RsiIsGainShare(values: seq<real>, period: nat, i: nat)
    requires 1 <= period <= i < |values|
    ensures var (gain, loss) := Averages(values, period, i);
      && RsiAt(values, period, i) * (gain + loss) == 100.0 * gain
      && (gain + loss == 0.0 ==> RsiAt(values, period, i) == 50.0)
  {
    var (gain, loss) := Averages(values, period, i);
    ShareOfGains(gain, loss);
  }

  method Rsi(values: seq<real>, period: int) returns (result: Option<seq<Option<real>>>)
    ensures result.Some? <==> period >= 1
    ensures result.Some? ==>
      && |result.value| == |values|
      && forall i :: 0 <= i < |values| ==>
           result.value[i] == if i < period then None else Some(RsiAt(values, period, i))
  {
    if period < 1 {
      return None;
    }
    var n := |values|;
    var out: seq<Option<real>> := seq(n, i => None);
    if n <= period {
      return Some(out);
    }
    var gains, losses := 0.0, 0.0;
    var i := 1;
    while i <= period
      invariant 1 <= i <= period + 1
      invariant gains == Gains(values, i - 1) && losses == Losses(values, i - 1)
    {
      gains := gains + Gain(values, i);
      losses := losses + Loss(values, i);
      i := i + 1;
    }
    var averageGain, averageLoss := gains / period as real, losses / period as real;
    assert (averageGain, averageLoss) == Averages(values, period, period);
    out := out[period := Some(RsiFrom(averageGain, averageLoss))];
    while i < n
      invariant period + 1 <= i <= n && |out| == n
      invariant (averageGain, averageLoss) == Averages(values, period, i - 1)
      invariant forall k :: 0 <= k < n ==>
        out[k] == if k < period || k >= i then None else Some(RsiAt(values, period, k))
    {
      averageGain := Smoothed(averageGain, Gain(values, i), period);
      averageLoss := Smoothed(averageLoss, Loss(values, i), period);
      assert (averageGain, averageLoss) == Averages(values, period, i);
      out := out[i := Some(RsiFrom(averageGain, averageLoss))];
      i := i + 1;
    }
    return Some(out);
  }

  /** Exchanging gains and losses reflects the RSI, and it stays within its scale. */
  lemma RsiReflects(gain: real, loss: real)
    requires gain >= 0.0 && loss >= 0.0
    ensures 0.0 <= RsiFrom(gain, loss) <= 100.0
    ensures RsiFrom(loss, gain) == 100.0 - RsiFrom(gain, loss)
  {
    if gain > 0.0 && loss > 0.0 {
      ShareOfTotal(gain, loss);
      ShareOfTotal(loss, gain);
      var total := gain + loss;
      assert gain / total + loss / total == 1.0;
    } else if loss > 0.0 {
      assert 0.0 / loss == 0.0;
    } else if gain > 0.0 {
      assert 0.0 / gain == 0.0;
    }
  }

  lemma ShareOfTotal(gain: real, loss: real)
    requires gain > 0.0 && loss > 0.0
    ensures RsiFrom(gain, loss) == 100.0 * (gain / (gain + loss))
    ensures 0.0 <= gain / (gain + loss) <= 1.0
  {
    var ratio := gain / loss;
    assert ratio * loss == gain;
    var total := gain + loss;
    assert (1.0 + ratio) * loss == total;
    var inverse := 1.0 / (1.0 + ratio);
    assert inverse * (1.0 + ratio) == 1.0;
    assert inverse * total == inverse * (1.0 + ratio) * loss == loss;
    var share := gain / total;
    assert share * total == gain;
    assert (share + inverse - 1.0) * total == 0.0;
  }

  function Negated(values: seq<real>): (r: seq<real>)
    ensures |r| == |values| && forall i :: 0 <= i < |values| ==> r[i] == -values[i]
  {
    seq(|values|, i requires 0 <= i < |values| => -values[i])
  }

  lemma {:induction false} NegatedSums(values: seq<real>, n: nat)
    requires n < |values|
    ensures Gains(Negated(values), n) == Losses(values, n) && Losses(Negated(values), n) == Gains(values, n)
  {
    if n > 0 {
      NegatedSums(values, n - 1);
    }
  }

  lemma {:induction false} NegatedAverages(values: seq<real>, period: nat, i: nat)
    requires 1 <= period <= i < |values|
    ensures Averages(Negated(values), period, i) == (Averages(values, period, i).1, Averages(values, period, i).0)
    decreases i
  {
    if i == period {
      NegatedSums(values, period);
    } else {
      NegatedAverages(values, period, i - 1);
    }
  }

  /** RSI lies in [0, 100], and turning prices upside down sends it to 100 minus itself. */
  lemma RsiOfNegatedPrices(values: seq<real>, period: nat, i: nat)
    requires 1 <= period <= i < |values|
    ensures 0.0 <= RsiAt(values, period, i) <= 100.0
    ensures RsiAt(Negated(values), period, i) == 100.0 - RsiAt(values, period, i)
  {
    NegatedAverages(values, period, i);
    var (gain, loss) := Averages(values, period, i);
    RsiReflects(gain, loss);
  }
}
