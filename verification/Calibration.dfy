/** Confidence calibration: equal-width buckets, expected calibration error, Brier score. */
module Calibration {
  import opened Quotients
  import opened Schemas

  datatype Sample = Sample(confidence: real, correct: bool)
  {
    predicate Valid() {
      0.0 <= confidence <= 1.0
    }

    function Outcome(): real {
      if correct then 1.0 else 0.0
    }

    /** Outcome minus stated confidence. */
    function Error(): real {
      Outcome() - confidence
    }

    function Brier(): real {
      (confidence - Outcome()) * (confidence - Outcome())
    }
  }

  predicate AllValid(samples: seq<Sample>) {
    forall i :: 0 <= i < |samples| ==> samples[i].Valid()
  }

  function Front(samples: seq<Sample>): seq<Sample>
    requires samples != []
  {
    samples[..|samples| - 1]
  }

  function Last(samples: seq<Sample>): Sample
    requires samples != []
  {
    samples[|samples| - 1]
  }

  // ---- sums over samples ----------------------------------------------

  function Confidences(samples: seq<Sample>): real {
    if samples == [] then 0.0 else Confidences(Front(samples)) + Last(samples).confidence
  }

  function Hits(samples: seq<Sample>): nat {
    if samples == [] then 0 else Hits(Front(samples)) + if Last(samples).correct then 1 else 0
  }

  function Errors(samples: seq<Sample>): real {
    if samples == [] then 0.0 else Errors(Front(samples)) + Last(samples).Error()
  }

  function AbsErrors(samples: seq<Sample>): real {
    if samples == [] then 0.0 else AbsErrors(Front(samples)) + Abs(Last(samples).Error())
  }

  function Briers(samples: seq<Sample>): real {
    if samples == [] then 0.0 else Briers(Front(samples)) + Last(samples).Brier()
  }

  lemma {:induction false} ErrorsAreHitsLessConfidences(samples: seq<Sample>)
    ensures Errors(samples) == Hits(samples) as real - Confidences(samples)
  {
    if samples != [] {
      ErrorsAreHitsLessConfidences(Front(samples));
    }
  }

  // ---- buckets --------------------------------------------------------

  /** Whole part of a scaled confidence, the top edge falling into the last bucket. */
  function Clamped(x: real, bins: nat): (b: nat)
    requires 0.0 <= x <= bins as real && bins >= 1
    ensures b < bins
  {
    if x.Floor < bins then x.Floor else bins - 1
  }

  /** Width is 1/bins, so confidence over width is confidence times bins. */
  function BucketOf(confidence: real, bins: nat): (b: nat)
    requires 0.0 <= confidence <= 1.0 && bins >= 1
    ensures b < bins
  {
    ScaledWithin(confidence, bins as real);
    Clamped(confidence * bins as real, bins)
  }

  lemma ScaledWithin(c: real, n: real)
    requires 0.0 <= c <= 1.0 && n >= 0.0
    ensures 0.0 <= c * n <= n
  {
    assert (1.0 - c) * n >= 0.0;
  }

  function InBucket(samples: seq<Sample>, bins: nat, b: nat): seq<Sample>
    requires AllValid(samples) && bins >= 1
  {
    if samples == [] then []
    else
      var before := InBucket(Front(samples), bins, b);
      if BucketOf(Last(samples).confidence, bins) == b then before + [Last(samples)] else before
  }

  /** Signed error collected by one bucket. */
  function BucketError(samples: seq<Sample>, bins: nat, b: nat): real
    requires AllValid(samples) && bins >= 1
  {
    if samples == [] then 0.0
    else BucketError(Front(samples), bins, b) + Share(Last(samples), bins, b)
  }

  function Share(s: Sample, bins: nat, b: nat): real
    requires s.Valid() && bins >= 1
  {
    if BucketOf(s.confidence, bins) == b then s.Error() else 0.0
  }

  lemma {:induction false} BucketErrorIsItsErrors(samples: seq<Sample>, bins: nat, b: nat)
    requires AllValid(samples) && bins >= 1
    ensures Errors(InBucket(samples, bins, b)) == BucketError(samples, bins, b)
  {
    if samples != [] {
      BucketErrorIsItsErrors(Front(samples), bins, b);
      var before := InBucket(Front(samples), bins, b);
      assert Front(before + [Last(samples)]) == before;
    }
  }

  /** Sizes of the first k buckets together. */
  function SizesUpTo(samples: seq<Sample>, bins: nat, k: nat): nat
    requires AllValid(samples) && bins >= 1
  {
    if k == 0 then 0 else SizesUpTo(samples, bins, k - 1) + |InBucket(samples, bins, k - 1)|
  }

  lemma {:induction false} SizesGrowByOne(samples: seq<Sample>, bins: nat, k: nat)
    requires samples != [] && AllValid(samples) && bins >= 1
    ensures SizesUpTo(samples, bins, k)
            == SizesUpTo(Front(samples), bins, k) + if BucketOf(Last(samples).confidence, bins) < k then 1 else 0
    decreases k
  {
    if k > 0 {
      SizesGrowByOne(samples, bins, k - 1);
    }
  }

  /** The buckets partition the samples. */
  lemma {:induction false} BucketsPartition(samples: seq<Sample>, bins: nat)
    requires AllValid(samples) && bins >= 1
    ensures SizesUpTo(samples, bins, bins) == |samples|
  {
    if samples == [] {
      EmptyBuckets(bins, bins);
    } else {
      BucketsPartition(Front(samples), bins);
      SizesGrowByOne(samples, bins, bins);
    }
  }

  lemma {:induction false} EmptyBuckets(bins: nat, k: nat)
    requires bins >= 1
    ensures SizesUpTo([], bins, k) == 0 && NetUpTo([], bins, k) == 0.0 && GrossUpTo([], bins, k) == 0.0
  {
    if k > 0 {
      EmptyBuckets(bins, k - 1);
    }
  }

  // ---- expected calibration error -------------------------------------

  /** One bucket's contribution, as it is computed: its share of the samples times its gap. */
  function Contribution(bucket: seq<Sample>, total: nat): real
    requires total > 0
  {
    if bucket == [] then 0.0
    else
      var n := |bucket| as real;
      n / total as real * Abs(Hits(bucket) as real / n - Confidences(bucket) / n)
  }

  function EceUpTo(samples: seq<Sample>, bins: nat, k: nat): real
    requires AllValid(samples) && bins >= 1 && samples != []
  {
    if k == 0 then 0.0
    else EceUpTo(samples, bins, k - 1) + Contribution(InBucket(samples, bins, k - 1), |samples|)
  }

  function Ece(samples: seq<Sample>, bins: nat): real
    requires AllValid(samples) && bins >= 1 && samples != []
  {
    EceUpTo(samples, bins, bins)
  }

  function MeanBrier(samples: seq<Sample>): real
    requires samples != []
  {
    Briers(samples) / |samples| as real
  }

  function MeanConfidence(samples: seq<Sample>): real
    requires samples != []
  {
    Confidences(samples) / |samples| as real
  }

  function HitRate(samples: seq<Sample>): real
    requires samples != []
  {
    Hits(samples) as real / |samples| as real
  }

  /** Absolute bucket errors of the first k buckets, unscaled. */
  function GrossUpTo(samples: seq<Sample>, bins: nat, k: nat): real
    requires AllValid(samples) && bins >= 1
  {
    if k == 0 then 0.0 else GrossUpTo(samples, bins, k - 1) + Abs(BucketError(samples, bins, k - 1))
  }

  /** Signed bucket errors of the first k buckets. */
  function NetUpTo(samples: seq<Sample>, bins: nat, k: nat): real
    requires AllValid(samples) && bins >= 1
  {
    if k == 0 then 0.0 else NetUpTo(samples, bins, k - 1) + BucketError(samples, bins, k - 1)
  }

  lemma ContributionIsAbsError(hits: real, confidences: real, n: real, total: real)
    requires n > 0.0 && total > 0.0
    ensures n / total * Abs(hits / n - confidences / n) == Abs(hits - confidences) / total
  {
    var gap := hits / n - confidences / n;
    assert gap * n == hits - confidences;
    AbsScales(gap, n);
    assert n / total * Abs(gap) == n * Abs(gap) / total;
  }

  lemma AbsScales(x: real, n: real)
    requires n > 0.0
    ensures Abs(x * n) == n * Abs(x)
  {
  }

  lemma ContributionOf(hits: real, confidences: real, n: real, total: real, error: real)
    requires n > 0.0 && total > 0.0 && error == hits - confidences
    ensures n / total * Abs(hits / n - confidences / n) == Abs(error) / total
  {
    ContributionIsAbsError(hits, confidences, n, total);
  }

  lemma ContributionIsErrors(bucket: seq<Sample>, total: nat, error: real)
    requires total > 0 && error == Errors(bucket)
    ensures Contribution(bucket, total) == Abs(error) / total as real
  {
    ErrorsAreHitsLessConfidences(bucket);
    if bucket != [] {
      ContributionOf(Hits(bucket) as real, Confidences(bucket), |bucket| as real, total as real, error);
    }
  }

  lemma ContributionOfBucket(samples: seq<Sample>, bins: nat, b: nat)
    requires AllValid(samples) && bins >= 1 && samples != []
    ensures Contribution(InBucket(samples, bins, b), |samples|) == Abs(BucketError(samples, bins, b)) / |samples| as real
  {
    BucketErrorIsItsErrors(samples, bins, b);
    ContributionIsErrors(InBucket(samples, bins, b), |samples|, BucketError(samples, bins, b));
  }

  lemma QuotientSum(a: real, b: real, n: real)
    requires n > 0.0
    ensures a / n + b / n == (a + b) / n
  {
  }

  /** What the loop accumulates is the total absolute bucket error over the number of samples. */
  lemma {:induction false} EceIsGross(samples: seq<Sample>, bins: nat, k: nat)
    requires AllValid(samples) && bins >= 1 && samples != []
    ensures EceUpTo(samples, bins, k) == GrossUpTo(samples, bins, k) / |samples| as real
    decreases k
  {
    if k > 0 {
      EceIsGross(samples, bins, k - 1);
      ContributionOfBucket(samples, bins, k - 1);
      QuotientSum(GrossUpTo(samples, bins, k - 1), Abs(BucketError(samples, bins, k - 1)), |samples| as real);
    }
  }

  // ---- the gap is within the ECE --------------------------------------

  lemma {:induction false} NetGrowsByError(samples: seq<Sample>, bins: nat, k: nat)
    requires samples != [] && AllValid(samples) && bins >= 1
    ensures NetUpTo(samples, bins, k)
            == NetUpTo(Front(samples), bins, k)
               + if BucketOf(Last(samples).confidence, bins) < k then Last(samples).Error() else 0.0
    decreases k
  {
    if k > 0 {
      NetGrowsByError(samples, bins, k - 1);
    }
  }

  lemma {:induction false} NetIsAllErrors(samples: seq<Sample>, bins: nat)
    requires AllValid(samples) && bins >= 1
    ensures NetUpTo(samples, bins, bins) == Errors(samples)
  {
    if samples == [] {
      EmptyBuckets(bins, bins);
    } else {
      NetIsAllErrors(Front(samples), bins);
      NetGrowsByError(samples, bins, bins);
    }
  }

  lemma {:induction false} NetWithinGross(samples: seq<Sample>, bins: nat, k: nat)
    requires AllValid(samples) && bins >= 1
    ensures Abs(NetUpTo(samples, bins, k)) <= GrossUpTo(samples, bins, k)
    decreases k
  {
    if k > 0 {
      NetWithinGross(samples, bins, k - 1);
    }
  }

  /** The overall gap between confidence and hit rate never exceeds the expected calibration error. */
  lemma GapWithinEce(samples: seq<Sample>, bins: nat)
    requires AllValid(samples) && bins >= 1 && samples != []
    ensures Abs(MeanConfidence(samples) - HitRate(samples)) <= Ece(samples, bins)
  {
    var n := |samples| as real;
    EceIsGross(samples, bins, bins);
    NetIsAllErrors(samples, bins);
    NetWithinGross(samples, bins, bins);
    ErrorsAreHitsLessConfidences(samples);
    GapOfQuotients(Confidences(samples), Hits(samples) as real, n, GrossUpTo(samples, bins, bins));
  }

  lemma GapOfQuotients(confidences: real, hits: real, n: real, gross: real)
    requires n > 0.0 && Abs(hits - confidences) <= gross
    ensures Abs(confidences / n - hits / n) <= gross / n
  {
    assert (gross / n) * n == gross && (confidences / n) * n == confidences && (hits / n) * n == hits;
    assert (gross / n - (confidences / n - hits / n)) * n >= 0.0;
    assert (gross / n + (confidences / n - hits / n)) * n >= 0.0;
  }

  // ---- ECE squared is within the Brier score --------------------------

  lemma {:induction false} GrossGrowsByAbsError(samples: seq<Sample>, bins: nat, k: nat)
    requires samples != [] && AllValid(samples) && bins >= 1
    ensures GrossUpTo(samples, bins, k)
            <= GrossUpTo(Front(samples), bins, k)
               + if BucketOf(Last(samples).confidence, bins) < k then Abs(Last(samples).Error()) else 0.0
    decreases k
  {
    if k > 0 {
      GrossGrowsByAbsError(samples, bins, k - 1);
    }
  }

  lemma {:induction false} GrossWithinAbsErrors(samples: seq<Sample>, bins: nat)
    requires AllValid(samples) && bins >= 1
    ensures GrossUpTo(samples, bins, bins) <= AbsErrors(samples)
  {
    if samples == [] {
      EmptyBuckets(bins, bins);
    } else {
      GrossWithinAbsErrors(Front(samples), bins);
      GrossGrowsByAbsError(samples, bins, bins);
    }
  }

  /** Cauchy-Schwarz against a constant: adding one term keeps sum squared within count times sum of squares. */
  lemma SquareOfSumStep(sum: real, squares: real, n: real, a: real)
    requires n >= 0.0 && sum * sum <= n * squares && squares >= 0.0
    ensures (sum + a) * (sum + a) <= (n + 1.0) * (squares + a * a)
  {
    CrossTermBound(sum, squares, n, a);
    assert (sum + a) * (sum + a) == sum * sum + 2.0 * sum * a + a * a;
    assert (n + 1.0) * (squares + a * a) == n * squares + squares + n * (a * a) + a * a;
  }

  lemma SquareIsPositive(x: real)
    requires x != 0.0
    ensures x * x > 0.0
  {
  }

  lemma CrossTermBound(sum: real, squares: real, n: real, a: real)
    requires n >= 0.0 && sum * sum <= n * squares && squares >= 0.0
    ensures 2.0 * sum * a <= squares + n * (a * a)
  {
    if n == 0.0 {
      if sum != 0.0 {
        SquareIsPositive(sum);
      }
    } else {
      var d := sum - n * a;
      assert d * d >= 0.0;
      var na := n * a;
      assert d * d == sum * sum - 2.0 * sum * na + na * na;
      assert 2.0 * sum * na <= n * squares + na * na;
      var gap := squares + n * (a * a) - 2.0 * sum * a;
      assert n * gap == n * squares + na * na - 2.0 * sum * na;
      assert n * gap >= 0.0;
    }
  }

  lemma {:induction false} AbsErrorsSquared(samples: seq<Sample>, abs: real, briers: real)
    requires abs == AbsErrors(samples) && briers == Briers(samples)
    ensures abs * abs <= |samples| as real * briers
    ensures briers >= 0.0 && abs >= 0.0
    decreases |samples|
  {
    if samples != [] {
      var a := Abs(Last(samples).Error());
      BrierIsSquare(Last(samples));
      AbsErrorsSquared(Front(samples), abs - a, briers - a * a);
      SquareOfSumStep(abs - a, briers - a * a, |Front(samples)| as real, a);
    }
  }

  lemma BrierIsSquare(s: Sample)
    ensures s.Brier() == Abs(s.Error()) * Abs(s.Error()) >= 0.0
  {
  }

  lemma EceParts(samples: seq<Sample>, bins: nat) returns (gross: real, abs: real)
    requires AllValid(samples) && bins >= 1 && samples != []
    ensures Ece(samples, bins) == gross / |samples| as real
    ensures 0.0 <= gross <= abs && abs * abs <= |samples| as real * Briers(samples)
  {
    gross, abs := GrossUpTo(samples, bins, bins), AbsErrors(samples);
    EceIsGross(samples, bins, bins);
    GrossWithinAbsErrors(samples, bins);
    NetWithinGross(samples, bins, bins);
    AbsErrorsSquared(samples, abs, Briers(samples));
  }

  /** The squared expected calibration error never exceeds the Brier score. */
  lemma EceSquaredWithinBrier(samples: seq<Sample>, bins: nat)
    requires AllValid(samples) && bins >= 1 && samples != []
    ensures Ece(samples, bins) * Ece(samples, bins) <= MeanBrier(samples)
  {
    var gross, abs := EceParts(samples, bins);
    SquaredQuotient(Ece(samples, bins), gross, abs, |samples| as real, Briers(samples));
  }

  lemma SquaredQuotient(q: real, gross: real, abs: real, n: real, briers: real)
    requires n > 0.0 && 0.0 <= gross <= abs && abs * abs <= n * briers && q == gross / n
    ensures q * q <= briers / n
  {
    assert q * n == gross;
    assert gross * gross <= abs * abs;
    assert q * n * (q * n) <= n * briers;
    var r := briers / n;
    assert r * n == briers;
    assert (r - q * q) * (n * n) >= 0.0;
  }

  // ---- coarser buckets ------------------------------------------------

  /** Merging groups of k buckets: the fine bucket of a sample lies inside its coarse bucket's group. */
  lemma FineBucketInGroup(c: real, k: nat, m: nat)
    requires 0.0 <= c <= 1.0 && k >= 1 && m >= 1
    ensures k * m >= 1
    ensures BucketOf(c, m) * k <= BucketOf(c, k * m) < BucketOf(c, m) * k + k
  {
    MulAtLeastOne(k, m);
    ScaledWithin(c, m as real);
    ScaledWithin(c, (k * m) as real);
    ProductsAssociate(c, k, m);
    GroupOfClamped(c * m as real, c * (k * m) as real, k, m, k * m);
  }

  lemma ProductsAssociate(c: real, k: nat, m: nat)
    ensures c * (k * m) as real == c * m as real * k as real
  {
  }

  /** Clamping both floors into their last buckets keeps the fine one inside the coarse one's group. */
  lemma GroupOfClamped(x: real, y: real, k: nat, m: nat, km: nat)
    requires 0.0 <= x <= m as real && 0.0 <= y <= km as real && k >= 1 && m >= 1 && km == k * m && km >= 1
    requires y == x * k as real
    ensures Clamped(x, m) * k <= Clamped(y, km) < Clamped(x, m) * k + k
  {
    FloorScales(x, k);
    assert (m - 1) * k + k == km;
    if x.Floor < m {
      MulInOrder(x.Floor + 1, m, k);
      assert (x.Floor + 1) * k == x.Floor * k + k;
    } else {
      assert x.Floor == m;
    }
  }

  lemma MulAtLeastOne(k: nat, m: nat)
    requires k >= 1 && m >= 1
    ensures k * m >= 1
  {
  }

  lemma MulInOrder(a: nat, b: nat, k: nat)
    requires a <= b
    ensures a * k <= b * k
  {
  }

  lemma ScaleBetween(low: real, x: real, high: real, k: real) returns (below: real, y: real, above: real)
    requires low <= x < high && k > 0.0
    ensures below == low * k && y == x * k && above == high * k
    ensures below <= y < above
  {
    below, y, above := low * k, x * k, high * k;
  }

  lemma FloorBetween(low: int, below: real, y: real, above: real, high: int)
    requires below == low as real && above == high as real && below <= y < above
    ensures low <= y.Floor < high
  {
  }

  lemma ScaledInteger(a: int, k: nat, scaled: int, product: real)
    requires scaled == a * k && product == a as real * k as real
    ensures product == scaled as real
  {
  }

  lemma FloorScales(x: real, k: nat)
    requires x >= 0.0 && k >= 1
    ensures x.Floor * k <= (x * k as real).Floor < x.Floor * k + k
  {
    var f := x.Floor;
    var low, high := f * k, (f + 1) * k;
    var below, y, above := ScaleBetween(f as real, x, (f + 1) as real, k as real);
    ScaledInteger(f, k, low, below);
    ScaledInteger(f + 1, k, high, above);
    FloorBetween(low, below, y, above, high);
    assert high == low + k;
  }

  /** Signed error of the first t fine buckets of a group. */
  function GroupError(samples: seq<Sample>, fine: nat, first: nat, t: nat): real
    requires AllValid(samples) && fine >= 1
  {
    if t == 0 then 0.0 else GroupError(samples, fine, first, t - 1) + BucketError(samples, fine, first + t - 1)
  }

  lemma {:induction false} GroupWithinGross(samples: seq<Sample>, fine: nat, first: nat, t: nat)
    requires AllValid(samples) && fine >= 1
    ensures Abs(GroupError(samples, fine, first, t))
            <= GrossUpTo(samples, fine, first + t) - GrossUpTo(samples, fine, first)
    decreases t
  {
    if t > 0 {
      GroupWithinGross(samples, fine, first, t - 1);
    }
  }

  lemma {:induction false} GroupGrowsByError(samples: seq<Sample>, fine: nat, first: nat, t: nat)
    requires samples != [] && AllValid(samples) && fine >= 1
    ensures GroupError(samples, fine, first, t)
            == GroupError(Front(samples), fine, first, t)
               + if first <= BucketOf(Last(samples).confidence, fine) < first + t then Last(samples).Error() else 0.0
    decreases t
  {
    if t > 0 {
      GroupGrowsByError(samples, fine, first, t - 1);
    }
  }

  lemma {:induction false} EmptyGroup(fine: nat, first: nat, t: nat)
    requires fine >= 1
    ensures GroupError([], fine, first, t) == 0.0
  {
    if t > 0 {
      EmptyGroup(fine, first, t - 1);
    }
  }

  lemma GroupsAreDisjoint(a: nat, b: nat, k: nat, j: nat)
    requires a * k <= j < a * k + k
    ensures b * k <= j < b * k + k <==> a == b
  {
    if a < b {
      MulInOrder(a + 1, b, k);
      assert (a + 1) * k == a * k + k;
    } else if b < a {
      MulInOrder(b + 1, a, k);
      assert (b + 1) * k == b * k + k;
    }
  }

  lemma {:induction false} GroupIsCoarseBucket(samples: seq<Sample>, k: nat, m: nat, b: nat)
    requires AllValid(samples) && k >= 1 && m >= 1 && k * m >= 1
    ensures GroupError(samples, k * m, b * k, k) == BucketError(samples, m, b)
    decreases |samples|
  {
    if samples == [] {
      EmptyGroup(k * m, b * k, k);
    } else {
      GroupIsCoarseBucket(Front(samples), k, m, b);
      GroupGrowsByError(samples, k * m, b * k, k);
      var c := Last(samples).confidence;
      FineBucketInGroup(c, k, m);
      GroupsAreDisjoint(BucketOf(c, m), b, k, BucketOf(c, k * m));
    }
  }

  lemma {:induction false} CoarseGrossWithinFine(samples: seq<Sample>, k: nat, m: nat, b: nat)
    requires AllValid(samples) && k >= 1 && m >= 1 && k * m >= 1
    ensures GrossUpTo(samples, m, b) <= GrossUpTo(samples, k * m, b * k)
    decreases b
  {
    if b > 0 {
      CoarseGrossWithinFine(samples, k, m, b - 1);
      GroupIsCoarseBucket(samples, k, m, b - 1);
      GroupWithinGross(samples, k * m, (b - 1) * k, k);
      assert (b - 1) * k + k == b * k;
    }
  }

  /** Coarsening k times m buckets to m never raises the expected calibration error. */
  lemma CoarseningNeverRaisesEce(samples: seq<Sample>, k: nat, m: nat)
    requires AllValid(samples) && samples != [] && k >= 1 && m >= 1
    ensures k * m >= 1
    ensures Ece(samples, m) <= Ece(samples, k * m)
  {
    MulAtLeastOne(k, m);
    CoarseGrossWithinFine(samples, k, m, m);
    assert m * k == k * m;
    EceIsGross(samples, m, m);
    EceIsGross(samples, k * m, k * m);
    QuotientsInOrder(GrossUpTo(samples, m, m), GrossUpTo(samples, k * m, k * m), |samples| as real);
  }

  // ---- the report -----------------------------------------------------

  datatype Bin = Bin(index: nat, count: nat, meanConfidence: real, hitRate: real)

  /** The report before its figures are rounded for display, or the error the inputs raise. A confidence
      outside [0, 1] fails in the Brier score, after bucketing; the model checks it first. */
  datatype Analysis =
    | LengthMismatch | TooFewBins | BadForecast
    | Report(bins: seq<Bin>, sampleCount: nat, brier: real, ece: real, meanConfidence: real, hitRate: real)

  function Zipped(confidences: seq<real>, outcomes: seq<bool>): (samples: seq<Sample>)
    requires |confidences| == |outcomes|
    ensures |samples| == |confidences|
  {
    seq(|confidences|, i requires 0 <= i < |confidences| => Sample(confidences[i], outcomes[i]))
  }

  function BinsUpTo(samples: seq<Sample>, bins: nat, k: nat): seq<Bin>
    requires AllValid(samples) && bins >= 1
  {
    if k == 0 then []
    else
      var bucket := InBucket(samples, bins, k - 1);
      BinsUpTo(samples, bins, k - 1)
      + if bucket == [] then [] else [Bin(k - 1, |bucket|, MeanConfidence(bucket), HitRate(bucket))]
  }

  method Distribute(samples: seq<Sample>, bins: nat) returns (buckets: seq<seq<Sample>>)
    requires AllValid(samples) && bins >= 1
    ensures |buckets| == bins && forall b :: 0 <= b < bins ==> buckets[b] == InBucket(samples, bins, b)
  {
    buckets := seq(bins, b => []);
    var i := 0;
    while i < |samples|
      invariant 0 <= i <= |samples| && |buckets| == bins
      invariant forall b :: 0 <= b < bins ==> buckets[b] == InBucket(samples[..i], bins, b)
    {
      var b := BucketOf(samples[i].confidence, bins);
      assert Front(samples[..i + 1]) == samples[..i];
      buckets := buckets[b := buckets[b] + [samples[i]]];
      i := i + 1;
    }
    assert samples[..i] == samples;
  }

  method Analyze(confidences: seq<real>, outcomes: seq<bool>, binCount: int) returns (r: Analysis)
    ensures r == LengthMismatch <==> |confidences| != |outcomes|
    ensures r == TooFewBins <==> |confidences| == |outcomes| && binCount < 1
    ensures r == BadForecast <==>
              |confidences| == |outcomes| && binCount >= 1 && !AllValid(Zipped(confidences, outcomes))
    ensures r.Report? ==> var samples := Zipped(confidences, outcomes);
              if samples == [] then r == Report([], 0, 0.0, 0.0, 0.0, 0.0)
              else r == Report(BinsUpTo(samples, binCount, binCount), |samples|, MeanBrier(samples),
                               Ece(samples, binCount), MeanConfidence(samples), HitRate(samples))
  {
    if |confidences| != |outcomes| {
      return LengthMismatch;
    }
    if binCount < 1 {
      return TooFewBins;
    }
    var samples := Zipped(confidences, outcomes);
    if exists i :: 0 <= i < |samples| && !samples[i].Valid() {
      return BadForecast;
    }
    if samples == [] {
      return Report([], 0, 0.0, 0.0, 0.0, 0.0);
    }
    var buckets := Distribute(samples, binCount);
    var bins: seq<Bin> := [];
    var ece := 0.0;
    var index := 0;
    while index < binCount
      invariant 0 <= index <= binCount
      invariant ece == EceUpTo(samples, binCount, index)
      invariant bins == BinsUpTo(samples, binCount, index)
    {
      var bucket := buckets[index];
      if bucket != [] {
        bins := bins + [Bin(index, |bucket|, MeanConfidence(bucket), HitRate(bucket))];
        ece := ece + Contribution(bucket, |samples|);
      }
      index := index + 1;
    }
    return Report(bins, |samples|, MeanBrier(samples), ece, MeanConfidence(samples), HitRate(samples));
  }
}
