/** What a calibration report says of its samples, told without the bucketing that produced it. */
module Reliability {
  import opened Calibration
  import opened Schemas

  // ---- what a bucket holds --------------------------------------------

  /** Bucket `b` of `bins` covers confidences from b/bins up to, and not including, (b + 1)/bins;
      the last one includes its top edge. */
  predicate Covers(b: nat, bins: nat, confidence: real) {
    b as real <= confidence * bins as real && (confidence * bins as real < b as real + 1.0 || b == bins - 1)
  }

  lemma ClampedCovers(x: real, bins: nat, b: nat)
    requires 0.0 <= x <= bins as real && b < bins
    ensures Clamped(x, bins) == b <==> b as real <= x && (x < b as real + 1.0 || b == bins - 1)
  {
  }

  lemma BucketCovers(confidence: real, bins: nat, b: nat)
    requires 0.0 <= confidence <= 1.0 && b < bins
    ensures BucketOf(confidence, bins) == b <==> Covers(b, bins, confidence)
  {
    var x := confidence * bins as real;
    ScaledWithin(confidence, bins as real);
    ClampedCovers(x, bins, b);
    assert BucketOf(confidence, bins) == Clamped(x, bins);
  }

  /** The positions of all samples a bucket covers, in order. */
  ghost predicate Chosen(samples: seq<Sample>, bins: nat, b: nat, at: seq<nat>) {
    && (forall k :: 0 <= k < |at| ==> at[k] < |samples|)
    && (forall j, k :: 0 <= j < k < |at| ==> at[j] < at[k])
    && (forall i :: 0 <= i < |samples| ==> (i in at <==> Covers(b, bins, samples[i].confidence)))
  }

  function Picked(samples: seq<Sample>, at: seq<nat>): seq<Sample>
    requires forall k :: 0 <= k < |at| ==> at[k] < |samples|
  {
    seq(|at|, k requires 0 <= k < |at| => samples[at[k]])
  }

  /** Exactly the samples a bucket covers, in their order. */
  ghost predicate HoldsCovered(samples: seq<Sample>, bins: nat, b: nat, held: seq<Sample>) {
    exists at :: Chosen(samples, bins, b, at) && held == Picked(samples, at)
  }

  ghost predicate SomeCovered(samples: seq<Sample>, bins: nat, b: nat) {
    exists i :: 0 <= i < |samples| && Covers(b, bins, samples[i].confidence)
  }

  lemma ChosenExtends(samples: seq<Sample>, bins: nat, b: nat, before: seq<nat>) returns (at: seq<nat>)
    requires samples != [] && Chosen(Front(samples), bins, b, before)
    ensures Chosen(samples, bins, b, at)
    ensures Picked(samples, at)
            == Picked(Front(samples), before) + if Covers(b, bins, Last(samples).confidence) then [Last(samples)] else []
  {
    at := if Covers(b, bins, Last(samples).confidence) then before + [|samples| - 1] else before;
    forall i | 0 <= i < |samples|
      ensures i in at <==> Covers(b, bins, samples[i].confidence)
    {
      if i < |samples| - 1 {
        assert Front(samples)[i] == samples[i];
      }
    }
  }

  lemma {:induction false} BucketIsPicked(samples: seq<Sample>, bins: nat, b: nat) returns (at: seq<nat>)
    requires AllValid(samples) && b < bins
    ensures Chosen(samples, bins, b, at) && InBucket(samples, bins, b) == Picked(samples, at)
  {
    if samples == [] {
      at := [];
    } else {
      at := BucketIsPicked(Front(samples), bins, b);
      at := ChosenExtends(samples, bins, b, at);
      BucketCovers(Last(samples).confidence, bins, b);
    }
  }

  /** What distribution puts into a bucket: exactly the samples it covers, in their order. */
  lemma BucketHoldsCovered(samples: seq<Sample>, bins: nat, b: nat)
    requires AllValid(samples) && b < bins
    ensures HoldsCovered(samples, bins, b, InBucket(samples, bins, b))
    ensures InBucket(samples, bins, b) != [] <==> SomeCovered(samples, bins, b)
  {
    var at := BucketIsPicked(samples, bins, b);
    if at != [] {
      assert at[0] in at;
    }
  }

  // ---- the reported bins ----------------------------------------------

  ghost predicate Averages(held: seq<Sample>, x: Bin) {
    && |held| == x.count
    && x.meanConfidence * x.count as real == Confidences(held)
    && x.hitRate * x.count as real == Hits(held) as real
  }

  /** A reported bin: the number, mean confidence and hit rate of exactly the samples its bucket covers. */
  ghost predicate BinTold(samples: seq<Sample>, bins: nat, x: Bin) {
    x.index < bins && x.count > 0 && exists held :: HoldsCovered(samples, bins, x.index, held) && Averages(held, x)
  }

  ghost predicate Reported(list: seq<Bin>, b: nat) {
    exists i :: 0 <= i < |list| && list[i].index == b
  }

  predicate InOrder(list: seq<Bin>) {
    forall i, j :: 0 <= i < j < |list| ==> list[i].index < list[j].index
  }

  function BinOf(held: seq<Sample>, b: nat): Bin
    requires held != []
  {
    Bin(b, |held|, MeanConfidence(held), HitRate(held))
  }

  lemma AveragesOf(held: seq<Sample>, b: nat)
    requires held != []
    ensures Averages(held, BinOf(held, b))
  {
  }

  /** The buckets among the first k that hold a sample. */
  function Filled(samples: seq<Sample>, bins: nat, k: nat): seq<nat>
    requires AllValid(samples) && bins >= 1
  {
    if k == 0 then []
    else if InBucket(samples, bins, k - 1) == [] then Filled(samples, bins, k - 1)
    else Filled(samples, bins, k - 1) + [k - 1]
  }

  lemma {:induction false} FilledAre(samples: seq<Sample>, bins: nat, k: nat)
    requires AllValid(samples) && bins >= 1
    ensures var f := Filled(samples, bins, k);
      && (forall b: nat :: b in f <==> b < k && InBucket(samples, bins, b) != [])
      && (forall i, j :: 0 <= i < j < |f| ==> f[i] < f[j])
    decreases k
  {
    if k > 0 {
      FilledAre(samples, bins, k - 1);
      var before := Filled(samples, bins, k - 1);
      forall i | 0 <= i < |before|
        ensures before[i] < k - 1
      {
        assert before[i] in before;
      }
    }
  }

  /** Each reported bin is made from the bucket at its place. */
  ghost predicate MadeFrom(samples: seq<Sample>, bins: nat, list: seq<Bin>, f: seq<nat>)
    requires AllValid(samples) && bins >= 1
  {
    && |list| == |f|
    && forall i :: 0 <= i < |f| ==>
         InBucket(samples, bins, f[i]) != [] && list[i] == BinOf(InBucket(samples, bins, f[i]), f[i])
  }

  lemma BinsNext(samples: seq<Sample>, bins: nat, k: nat)
    requires AllValid(samples) && bins >= 1
    ensures var held := InBucket(samples, bins, k);
      BinsUpTo(samples, bins, k + 1)
      == if held == [] then BinsUpTo(samples, bins, k) else BinsUpTo(samples, bins, k) + [BinOf(held, k)]
  {
  }

  lemma MadeNext(samples: seq<Sample>, bins: nat, list: seq<Bin>, f: seq<nat>, b: nat)
    requires AllValid(samples) && bins >= 1 && MadeFrom(samples, bins, list, f) && InBucket(samples, bins, b) != []
    ensures MadeFrom(samples, bins, list + [BinOf(InBucket(samples, bins, b), b)], f + [b])
  {
  }

  lemma {:induction false} BinsAreMade(samples: seq<Sample>, bins: nat, k: nat)
    requires AllValid(samples) && bins >= 1
    ensures MadeFrom(samples, bins, BinsUpTo(samples, bins, k), Filled(samples, bins, k))
    decreases k
  {
    if k > 0 {
      BinsAreMade(samples, bins, k - 1);
      BinsNext(samples, bins, k - 1);
      if InBucket(samples, bins, k - 1) != [] {
        MadeNext(samples, bins, BinsUpTo(samples, bins, k - 1), Filled(samples, bins, k - 1), k - 1);
      }
    }
  }

  lemma BinIsTold(samples: seq<Sample>, bins: nat, b: nat)
    requires AllValid(samples) && b < bins && InBucket(samples, bins, b) != []
    ensures BinTold(samples, bins, BinOf(InBucket(samples, bins, b), b))
  {
    var held := InBucket(samples, bins, b);
    BucketHoldsCovered(samples, bins, b);
    AveragesOf(held, b);
    assert HoldsCovered(samples, bins, b, held) && Averages(held, BinOf(held, b));
  }

  /** The bins a report lists: in order, one for each bucket that covers a sample, each with the number, mean
      confidence and hit rate of exactly the samples its bucket covers. */
  lemma ReportIsTold(samples: seq<Sample>, bins: nat)
    requires AllValid(samples) && bins >= 1
    ensures var list := BinsUpTo(samples, bins, bins);
      && InOrder(list)
      && (forall i :: 0 <= i < |list| ==> BinTold(samples, bins, list[i]))
      && (forall b :: 0 <= b < bins ==> (Reported(list, b) <==> SomeCovered(samples, bins, b)))
  {
    var list, f := BinsUpTo(samples, bins, bins), Filled(samples, bins, bins);
    BinsAreMade(samples, bins, bins);
    FilledAre(samples, bins, bins);
    ListIsTold(samples, bins, list, f);
    forall b | 0 <= b < bins
      ensures Reported(list, b) <==> SomeCovered(samples, bins, b)
    {
      BucketHoldsCovered(samples, bins, b);
      ReportedIff(samples, bins, list, f, b);
    }
  }

  lemma ListIsTold(samples: seq<Sample>, bins: nat, list: seq<Bin>, f: seq<nat>)
    requires AllValid(samples) && bins >= 1 && MadeFrom(samples, bins, list, f)
    requires forall i :: 0 <= i < |f| ==> f[i] < bins
    requires forall i, j :: 0 <= i < j < |f| ==> f[i] < f[j]
    ensures InOrder(list) && forall i :: 0 <= i < |list| ==> BinTold(samples, bins, list[i])
  {
    forall i | 0 <= i < |list|
      ensures BinTold(samples, bins, list[i])
    {
      BinIsTold(samples, bins, f[i]);
    }
  }

  lemma ReportedIff(samples: seq<Sample>, bins: nat, list: seq<Bin>, f: seq<nat>, b: nat)
    requires AllValid(samples) && bins >= 1 && MadeFrom(samples, bins, list, f)
    ensures Reported(list, b) <==> b in f
  {
    if b in f {
      var i :| 0 <= i < |f| && f[i] == b;
      assert list[i].index == b;
    }
  }

  // ---- the error, from the report -------------------------------------

  /** Sum over reported bins of count times the gap between hit rate and mean confidence. */
  function WeightedGaps(list: seq<Bin>): real {
    if list == [] then 0.0 else WeightedGaps(list[..|list| - 1]) + Weighted(list[|list| - 1])
  }

  function Weighted(x: Bin): real {
    x.count as real * Abs(x.hitRate - x.meanConfidence)
  }

  lemma GapsNext(list: seq<Bin>, x: Bin)
    ensures WeightedGaps(list + [x]) == WeightedGaps(list) + Weighted(x)
  {
    assert (list + [x])[..|list|] == list;
  }

  lemma GapScales(hits: real, confidences: real, n: real)
    requires n > 0.0
    ensures n * Abs(hits / n - confidences / n) == Abs(hits - confidences)
  {
    var gap := hits / n - confidences / n;
    assert gap * n == hits - confidences;
    AbsScales(gap, n);
  }

  lemma WeightedOf(held: seq<Sample>, b: nat, n: real, hits: real, confidences: real)
    requires held != [] && n == |held| as real && hits == Hits(held) as real && confidences == Confidences(held)
    ensures Weighted(BinOf(held, b)) == n * Abs(hits / n - confidences / n)
  {
  }

  lemma WeightedIsAbsError(held: seq<Sample>, b: nat, error: real)
    requires held != [] && error == Errors(held)
    ensures Weighted(BinOf(held, b)) == Abs(error)
  {
    var n, hits, confidences := |held| as real, Hits(held) as real, Confidences(held);
    ErrorsAreHitsLessConfidences(held);
    WeightedOf(held, b, n, hits, confidences);
    GapScales(hits, confidences, n);
  }

  lemma WeightedBucket(samples: seq<Sample>, bins: nat, b: nat)
    requires AllValid(samples) && bins >= 1
    ensures var held := InBucket(samples, bins, b);
      Abs(BucketError(samples, bins, b)) == if held == [] then 0.0 else Weighted(BinOf(held, b))
  {
    var held := InBucket(samples, bins, b);
    BucketErrorIsItsErrors(samples, bins, b);
    if held != [] {
      WeightedIsAbsError(held, b, BucketError(samples, bins, b));
    }
  }

  lemma GapsOfNext(samples: seq<Sample>, bins: nat, k: nat)
    requires AllValid(samples) && bins >= 1
    ensures WeightedGaps(BinsUpTo(samples, bins, k + 1))
            == WeightedGaps(BinsUpTo(samples, bins, k)) + Abs(BucketError(samples, bins, k))
  {
    var held := InBucket(samples, bins, k);
    BinsNext(samples, bins, k);
    WeightedBucket(samples, bins, k);
    if held != [] {
      GapsNext(BinsUpTo(samples, bins, k), BinOf(held, k));
    }
  }

  lemma GapsStep(samples: seq<Sample>, bins: nat, k: nat)
    requires AllValid(samples) && bins >= 1 && k > 0
    requires GrossUpTo(samples, bins, k - 1) == WeightedGaps(BinsUpTo(samples, bins, k - 1))
    ensures GrossUpTo(samples, bins, k) == WeightedGaps(BinsUpTo(samples, bins, k))
  {
    GapsOfNext(samples, bins, k - 1);
  }

  lemma {:induction false} GrossIsWeightedGaps(samples: seq<Sample>, bins: nat, k: nat)
    requires AllValid(samples) && bins >= 1
    ensures GrossUpTo(samples, bins, k) == WeightedGaps(BinsUpTo(samples, bins, k))
    decreases k
  {
    if k > 0 {
      GrossIsWeightedGaps(samples, bins, k - 1);
      GapsStep(samples, bins, k);
    }
  }

  /** The reported error is the gap between hit rate and mean confidence averaged over the reported bins,
      weighted by their counts. */
  lemma EceIsWeightedGap(samples: seq<Sample>, bins: nat)
    requires AllValid(samples) && bins >= 1 && samples != []
    ensures Ece(samples, bins) == WeightedGaps(BinsUpTo(samples, bins, bins)) / |samples| as real
  {
    EceIsGross(samples, bins, bins);
    GrossIsWeightedGaps(samples, bins, bins);
  }

  // ---- the totals -----------------------------------------------------

  function SquaredConfidences(samples: seq<Sample>): real {
    if samples == [] then 0.0
    else SquaredConfidences(Front(samples)) + Last(samples).confidence * Last(samples).confidence
  }

  /** Confidence placed in the forecasts that came true. */
  function TrueConfidences(samples: seq<Sample>): real {
    if samples == [] then 0.0
    else TrueConfidences(Front(samples)) + if Last(samples).correct then Last(samples).confidence else 0.0
  }

  lemma BrierOf(s: Sample)
    ensures s.Brier() == s.confidence * s.confidence + if s.correct then 1.0 - 2.0 * s.confidence else 0.0
  {
  }

  lemma {:induction false} BriersSplit(samples: seq<Sample>)
    ensures Briers(samples) == SquaredConfidences(samples) - 2.0 * TrueConfidences(samples) + Hits(samples) as real
  {
    if samples != [] {
      BriersSplit(Front(samples));
      BrierOf(Last(samples));
    }
  }

  lemma MeanTimesCount(total: real, n: real)
    requires n > 0.0
    ensures total / n * n == total
  {
  }

  /** The overall means are those of all samples. */
  lemma MeansAreTold(samples: seq<Sample>)
    requires samples != []
    ensures MeanConfidence(samples) * |samples| as real == Confidences(samples)
    ensures HitRate(samples) * |samples| as real == Hits(samples) as real
  {
    MeanTimesCount(Confidences(samples), |samples| as real);
    MeanTimesCount(Hits(samples) as real, |samples| as real);
  }

  /** The Brier score is the mean of the squared confidences, less twice the confidence placed in what came true, plus
      one for each hit. */
  lemma BrierIsTold(samples: seq<Sample>, n: real)
    requires samples != [] && n == |samples| as real
    ensures MeanBrier(samples) * n == SquaredConfidences(samples) - 2.0 * TrueConfidences(samples) + Hits(samples) as real
  {
    var total := Briers(samples);
    BriersSplit(samples);
    MeanTimesCount(total, n);
    assert MeanBrier(samples) == total / n;
  }
}
