/** Multiple-testing corrections: the Benjamini-Hochberg step-up rule and Bonferroni. */
module Statistics {
  import opened Quotients
  import opened Schemas

  // ---- the declarative rule -------------------------------------------

  /** The k-th step of the staircase for n hypotheses. */
  function Threshold(alpha: real, k: nat, n: nat): real
    requires n > 0
  {
    alpha * k as real / n as real
  }

  function AtMost(p: seq<real>, t: real): set<nat> {
    set i: nat | i < |p| && p[i] <= t
  }

  function Count(p: seq<real>, t: real): nat {
    |AtMost(p, t)|
  }

  /** At least k of the p-values lie under the k-th step. */
  predicate Reaches(p: seq<real>, alpha: real, k: nat)
    requires p != []
  {
    Count(p, Threshold(alpha, k, |p|)) >= k
  }

  /** The largest k, up to a bound, that reaches its step; 0 when none does. */
  function LargestUpTo(p: seq<real>, alpha: real, bound: nat): nat
    requires p != []
  {
    if bound == 0 then 0
    else if Reaches(p, alpha, bound) then bound
    else LargestUpTo(p, alpha, bound - 1)
  }

  function Largest(p: seq<real>, alpha: real): nat
    requires p != []
  {
    LargestUpTo(p, alpha, |p|)
  }

  /** Hypothesis i is rejected: its p-value lies under the largest step reached. */
  predicate Rejected(p: seq<real>, alpha: real, i: nat)
    requires i < |p|
  {
    Largest(p, alpha) > 0 && p[i] <= Threshold(alpha, Largest(p, alpha), |p|)
  }

  lemma {:induction false} LargestIsLargest(p: seq<real>, alpha: real, bound: nat)
    requires p != []
    ensures var k := LargestUpTo(p, alpha, bound);
      && k <= bound
      && (k > 0 ==> Reaches(p, alpha, k))
      && forall j :: k < j <= bound ==> !Reaches(p, alpha, j)
    decreases bound
  {
    if bound > 0 && !Reaches(p, alpha, bound) {
      LargestIsLargest(p, alpha, bound - 1);
    }
  }

  lemma {:induction false} LargestUnique(p: seq<real>, alpha: real, bound: nat, k: nat)
    requires p != [] && k <= bound
    requires k > 0 ==> Reaches(p, alpha, k)
    requires forall j :: k < j <= bound ==> !Reaches(p, alpha, j)
    ensures LargestUpTo(p, alpha, bound) == k
    decreases bound
  {
    if k < bound {
      LargestUnique(p, alpha, bound - 1, k);
    }
  }

  lemma ThresholdGrows(alpha: real, alpha': real, k: nat, k': nat, n: nat)
    requires n > 0 && 0.0 <= alpha <= alpha' && k <= k'
    ensures Threshold(alpha, k, n) <= Threshold(alpha', k', n)
  {
    assert alpha * k as real <= alpha' * k as real;
    assert alpha' * k as real <= alpha' * k' as real;
    QuotientsInOrder(alpha * k as real, alpha' * k' as real, n as real);
  }

  // ---- the rule in one formula ----------------------------------------

  /** The p-values at or below alpha times k over their number. */
  function Under(p: seq<real>, alpha: real, k: nat): set<nat> {
    set i: nat | i < |p| && p[i] * |p| as real <= alpha * k as real
  }

  lemma StepScaled(x: real, alpha: real, k: nat, n: nat)
    requires n > 0
    ensures x <= Threshold(alpha, k, n) <==> x * n as real <= alpha * k as real
  {
    var t := Threshold(alpha, k, n);
    assert t * n as real == alpha * k as real;
    if x <= t {
      assert (t - x) * n as real >= 0.0;
    } else {
      assert (x - t) * n as real > 0.0;
    }
  }

  lemma UnderIsAtMost(p: seq<real>, alpha: real, k: nat)
    requires p != []
    ensures Under(p, alpha, k) == AtMost(p, Threshold(alpha, k, |p|))
  {
    forall i: nat | i < |p|
      ensures i in Under(p, alpha, k) <==> i in AtMost(p, Threshold(alpha, k, |p|))
    {
      StepScaled(p[i], alpha, k, |p|);
    }
  }

  /** A hypothesis is rejected exactly when some k makes at least k of the n p-values at most alpha k / n,
      its own among them. */
  lemma RejectedIff(p: seq<real>, alpha: real, i: nat)
    requires alpha >= 0.0 && i < |p|
    ensures Rejected(p, alpha, i) <==>
            exists k: nat :: 1 <= k <= |p| && |Under(p, alpha, k)| >= k && i in Under(p, alpha, k)
  {
    var most := Largest(p, alpha);
    LargestIsLargest(p, alpha, |p|);
    UnderIsAtMost(p, alpha, most);
    if k: nat :| 1 <= k <= |p| && |Under(p, alpha, k)| >= k && i in Under(p, alpha, k) {
      UnderIsAtMost(p, alpha, k);
      assert Reaches(p, alpha, k);
      ThresholdGrows(alpha, alpha, k, most, |p|);
    }
  }

  // ---- sorted orders --------------------------------------------------

  /** A listing of all indices with their p-values ascending; ties in any order. */
  predicate SortedOrder(p: seq<real>, ordered: seq<nat>) {
    && |ordered| == |p|
    && (forall j :: 0 <= j < |ordered| ==> ordered[j] < |p|)
    && (forall j, k :: 0 <= j < k < |ordered| ==> ordered[j] != ordered[k])
    && (forall j, k :: 0 <= j <= k < |ordered| ==> p[ordered[j]] <= p[ordered[k]])
    && (forall i :: 0 <= i < |p| ==> i in ordered)
  }

  /** Where a stable sort by p-value places index i: after the last entry that is not larger. */
  function Slot(p: seq<real>, ordered: seq<nat>, i: nat, bound: nat): (k: nat)
    requires i < |p| && bound <= |ordered| && forall j :: 0 <= j < |ordered| ==> ordered[j] < |p|
    ensures k <= bound && (k > 0 ==> p[ordered[k - 1]] <= p[i])
    ensures forall j :: k <= j < bound ==> p[ordered[j]] > p[i]
  {
    if bound == 0 || p[ordered[bound - 1]] <= p[i] then bound else Slot(p, ordered, i, bound - 1)
  }

  /** The first n indices, listed with their p-values ascending. */
  predicate Listing(p: seq<real>, ordered: seq<nat>, n: nat) {
    && |ordered| == n <= |p|
    && (forall j :: 0 <= j < n ==> ordered[j] < n)
    && (forall j, k :: 0 <= j < k < n ==> ordered[j] != ordered[k])
    && (forall j, k :: 0 <= j <= k < n ==> p[ordered[j]] <= p[ordered[k]])
    && (forall i :: 0 <= i < n ==> i in ordered)
  }

  function Inserted(p: seq<real>, ordered: seq<nat>, n: nat): (r: seq<nat>)
    requires n < |p| && Listing(p, ordered, n)
    ensures Listing(p, r, n + 1)
  {
    var k := Slot(p, ordered, n, n);
    var r := ordered[..k] + [n] + ordered[k..];
    InsertedListing(p, ordered, n, k, r);
    r
  }

  predicate Spliced(ordered: seq<nat>, n: nat, k: nat, r: seq<nat>) {
    && k <= |ordered| && |r| == |ordered| + 1 && r[k] == n
    && (forall j :: 0 <= j < k ==> r[j] == ordered[j])
    && (forall j :: k < j < |r| ==> r[j] == ordered[j - 1])
  }

  lemma InsertedSorted(p: seq<real>, ordered: seq<nat>, n: nat, k: nat, r: seq<nat>)
    requires n < |p| && |ordered| == n && Spliced(ordered, n, k, r)
    requires forall j :: 0 <= j < n ==> ordered[j] < n
    requires forall j, l :: 0 <= j <= l < n ==> p[ordered[j]] <= p[ordered[l]]
    requires forall j :: k <= j < n ==> p[ordered[j]] > p[n]
    requires k > 0 ==> p[ordered[k - 1]] <= p[n]
    ensures forall j :: 0 <= j < n + 1 ==> r[j] < n + 1
    ensures forall j, l :: 0 <= j <= l < n + 1 ==> p[r[j]] <= p[r[l]]
  {
  }

  lemma InsertedCovers(ordered: seq<nat>, n: nat, k: nat, r: seq<nat>)
    requires |ordered| == n && Spliced(ordered, n, k, r)
    requires forall j :: 0 <= j < n ==> ordered[j] < n
    requires forall j, l :: 0 <= j < l < n ==> ordered[j] != ordered[l]
    requires forall i :: 0 <= i < n ==> i in ordered
    ensures forall j, l :: 0 <= j < l < n + 1 ==> r[j] != r[l]
    ensures forall i :: 0 <= i < n + 1 ==> i in r
  {
    forall i | 0 <= i < n + 1
      ensures i in r
    {
      if i < n {
        assert i in ordered;
        var j :| 0 <= j < n && ordered[j] == i;
        assert r[if j < k then j else j + 1] == i;
      }
    }
  }

  lemma InsertedListing(p: seq<real>, ordered: seq<nat>, n: nat, k: nat, r: seq<nat>)
    requires n < |p| && Listing(p, ordered, n) && k <= n && r == ordered[..k] + [n] + ordered[k..]
    requires forall j :: k <= j < n ==> p[ordered[j]] > p[n]
    requires k > 0 ==> p[ordered[k - 1]] <= p[n]
    ensures Listing(p, r, n + 1)
  {
    assert Spliced(ordered, n, k, r);
    InsertedSorted(p, ordered, n, k, r);
    InsertedCovers(ordered, n, k, r);
  }

  /** Python's `sorted(range(n), key=...)`. */
  function SortedIndices(p: seq<real>, n: nat): (r: seq<nat>)
    requires n <= |p|
    ensures Listing(p, r, n)
  {
    if n == 0 then [] else Inserted(p, SortedIndices(p, n - 1), n - 1)
  }

  // ---- counting in a sorted order -------------------------------------

  lemma {:induction false} DistinctPrefixSize(ordered: seq<nat>, r: nat)
    requires r <= |ordered| && forall j, k :: 0 <= j < k < |ordered| ==> ordered[j] != ordered[k]
    ensures |set j | 0 <= j < r :: ordered[j]| == r
  {
    if r > 0 {
      DistinctPrefixSize(ordered, r - 1);
      assert (set j | 0 <= j < r :: ordered[j]) == (set j | 0 <= j < r - 1 :: ordered[j]) + {ordered[r - 1]};
    }
  }

  lemma SubsetSize(a: set<nat>, b: set<nat>)
    requires a <= b
    ensures |a| <= |b|
  {
    assert b == a + (b - a);
  }

  /** The r-th smallest p-value is at most t exactly when at least r of them are. */
  lemma RankMeansCount(p: seq<real>, ordered: seq<nat>, r: nat, t: real)
    requires SortedOrder(p, ordered) && 1 <= r <= |p|
    ensures p[ordered[r - 1]] <= t <==> Count(p, t) >= r
  {
    if p[ordered[r - 1]] <= t {
      DistinctPrefixSize(ordered, r);
      SubsetSize(set j | 0 <= j < r :: ordered[j], AtMost(p, t));
    } else {
      DistinctPrefixSize(ordered, r - 1);
      forall i | i in AtMost(p, t)
        ensures i in (set j | 0 <= j < r - 1 :: ordered[j])
      {
        assert i in ordered;
        var j :| 0 <= j < |ordered| && ordered[j] == i;
        assert j < r - 1;
      }
      SubsetSize(AtMost(p, t), set j | 0 <= j < r - 1 :: ordered[j]);
    }
  }

  /** The largest rank whose p-value lies under its own step is the largest k reached, and the indices up to
      that rank are exactly those under its step; so tie order cannot matter. */
  lemma StepUpSelects(p: seq<real>, alpha: real, ordered: seq<nat>, hit: nat)
    requires p != [] && alpha > 0.0 && SortedOrder(p, ordered) && hit <= |p|
    requires hit > 0 ==> p[ordered[hit - 1]] <= Threshold(alpha, hit, |p|)
    requires forall r :: hit < r <= |p| ==> p[ordered[r - 1]] > Threshold(alpha, r, |p|)
    ensures hit == Largest(p, alpha)
    ensures forall j :: 0 <= j < |p| ==> (j < hit <==> Rejected(p, alpha, ordered[j]))
  {
    forall r | 1 <= r <= |p|
      ensures Reaches(p, alpha, r) <==> p[ordered[r - 1]] <= Threshold(alpha, r, |p|)
    {
      RankMeansCount(p, ordered, r, Threshold(alpha, r, |p|));
    }
    forall r | hit < r <= |p|
      ensures !Reaches(p, alpha, r)
    {
      assert p[ordered[r - 1]] > Threshold(alpha, r, |p|);
    }
    LargestUnique(p, alpha, |p|, hit);
    forall j | hit <= j < |p|
      ensures hit > 0 ==> p[ordered[j]] > Threshold(alpha, hit, |p|)
    {
      assert p[ordered[hit]] > Threshold(alpha, hit + 1, |p|) by {
        assert p[ordered[hit + 1 - 1]] > Threshold(alpha, hit + 1, |p|);
      }
      ThresholdGrows(alpha, alpha, hit, hit + 1, |p|);
    }
  }

  // ---- the loop -------------------------------------------------------

  method LargestHit(p: seq<real>, alpha: real, ordered: seq<nat>) returns (hit: nat)
    requires p != [] && SortedOrder(p, ordered)
    ensures hit <= |p|
    ensures hit > 0 ==> p[ordered[hit - 1]] <= Threshold(alpha, hit, |p|)
    ensures forall r :: hit < r <= |p| ==> p[ordered[r - 1]] > Threshold(alpha, r, |p|)
  {
    hit := 0;
    var rank := 1;
    while rank <= |p|
      invariant 1 <= rank <= |p| + 1 && hit < rank
      invariant hit > 0 ==> p[ordered[hit - 1]] <= Threshold(alpha, hit, |p|)
      invariant forall r :: hit < r < rank ==> p[ordered[r - 1]] > Threshold(alpha, r, |p|)
    {
      if p[ordered[rank - 1]] <= Threshold(alpha, rank, |p|) {
        hit := rank;
      }
      rank := rank + 1;
    }
  }

  method FlagFirst(ordered: seq<nat>, hit: nat) returns (flags: seq<bool>)
    requires hit <= |ordered| && forall j :: 0 <= j < |ordered| ==> ordered[j] < |ordered|
    requires forall j, k :: 0 <= j < k < |ordered| ==> ordered[j] != ordered[k]
    ensures |flags| == |ordered|
    ensures forall j :: 0 <= j < |ordered| ==> (flags[ordered[j]] <==> j < hit)
  {
    flags := seq(|ordered|, i => false);
    var k := 0;
    while k < hit
      invariant 0 <= k <= hit && |flags| == |ordered|
      invariant forall j :: 0 <= j < |ordered| ==> (flags[ordered[j]] <==> j < k)
    {
      flags := flags[ordered[k] := true];
      k := k + 1;
    }
  }

  /** Rejection flags aligned to the p-values; None for an alpha outside (0, 1]. */
  method BenjaminiHochberg(p: seq<real>, alpha: real) returns (result: Option<seq<bool>>)
    ensures result.Some? <==> 0.0 < alpha <= 1.0
    ensures result.Some? ==>
      && |result.value| == |p|
      && forall i :: 0 <= i < |p| ==> (result.value[i] <==> Rejected(p, alpha, i))
  {
    if !(0.0 < alpha <= 1.0) {
      return None;
    }
    if p == [] {
      return Some([]);
    }
    var ordered := SortedIndices(p, |p|);
    var hit := LargestHit(p, alpha, ordered);
    StepUpSelects(p, alpha, ordered, hit);
    var flags := FlagFirst(ordered, hit);
    forall i | 0 <= i < |p|
      ensures flags[i] <==> Rejected(p, alpha, i)
    {
      assert i in ordered;
      var j :| 0 <= j < |ordered| && ordered[j] == i;
      assert flags[ordered[j]] <==> j < hit;
    }
    return Some(flags);
  }

  function Bonferroni(p: seq<real>, alpha: real): (flags: seq<bool>)
    ensures |flags| == |p|
    ensures forall i :: 0 <= i < |p| ==> (flags[i] <==> p[i] <= alpha / |p| as real)
  {
    if p == [] then [] else seq(|p|, i requires 0 <= i < |p| => p[i] <= alpha / |p| as real)
  }

  // ---- consequences ---------------------------------------------------

  /** A reached step's own count is reached too. */
  lemma CountIsReached(p: seq<real>, alpha: real, k: nat)
    requires p != [] && alpha > 0.0 && Reaches(p, alpha, k)
    ensures var m := Count(p, Threshold(alpha, k, |p|)); k <= m <= |p| && Reaches(p, alpha, m)
  {
    var t := Threshold(alpha, k, |p|);
    var m := Count(p, t);
    CountWithin(p, t);
    ThresholdGrows(alpha, alpha, k, m, |p|);
    CountGrows(p, p, t, Threshold(alpha, m, |p|));
  }

  /** Exactly as many hypotheses are rejected as the largest step says. */
  lemma RejectsExactlyLargest(p: seq<real>, alpha: real)
    requires p != [] && alpha > 0.0
    ensures |set i: nat | i < |p| && Rejected(p, alpha, i)| == Largest(p, alpha)
  {
    var k := Largest(p, alpha);
    LargestIsLargest(p, alpha, |p|);
    if k > 0 {
      var t := Threshold(alpha, k, |p|);
      assert (set i: nat | i < |p| && Rejected(p, alpha, i)) == AtMost(p, t);
      CountIsReached(p, alpha, k);
    } else {
      assert (set i: nat | i < |p| && Rejected(p, alpha, i)) == {};
    }
  }

  function Below(n: nat): (s: set<nat>)
    ensures |s| == n && forall i: nat :: i in s <==> i < n
  {
    if n == 0 then {} else Below(n - 1) + {n - 1}
  }

  lemma CountWithin(p: seq<real>, t: real)
    ensures Count(p, t) <= |p|
  {
    SubsetSize(AtMost(p, t), Below(|p|));
  }

  lemma CountGrows(p: seq<real>, q: seq<real>, t: real, u: real)
    requires |p| == |q| && t <= u && forall i :: 0 <= i < |p| ==> q[i] <= p[i]
    ensures Count(p, t) <= Count(q, u)
  {
    SubsetSize(AtMost(p, t), AtMost(q, u));
  }

  /** Raising alpha or lowering p-values never un-rejects a hypothesis. */
  lemma RejectionIsMonotone(p: seq<real>, q: seq<real>, alpha: real, alpha': real, i: nat)
    requires |p| == |q| && 0.0 < alpha <= alpha' && i < |p|
    requires forall j :: 0 <= j < |p| ==> q[j] <= p[j]
    requires Rejected(p, alpha, i)
    ensures Rejected(q, alpha', i)
  {
    var k, k' := Largest(p, alpha), Largest(q, alpha');
    LargestIsLargest(p, alpha, |p|);
    LargestIsLargest(q, alpha', |q|);
    ThresholdGrows(alpha, alpha', k, k, |p|);
    CountGrows(p, q, Threshold(alpha, k, |p|), Threshold(alpha', k, |p|));
    assert Reaches(q, alpha', k);
    ThresholdGrows(alpha, alpha', k, k', |p|);
  }

  /** Testing more hypotheses never helps one of them through. */
  lemma MoreHypothesesRejectFewer(p: seq<real>, q: seq<real>, alpha: real, i: nat)
    requires alpha >= 0.0 && p <= q && i < |p| && Bonferroni(q, alpha)[i]
    ensures Bonferroni(p, alpha)[i]
  {
    LargerDivisor(alpha, |p| as real, |q| as real);
  }

  lemma LargerDivisor(a: real, n: real, m: real)
    requires a >= 0.0 && 0.0 < n <= m
    ensures a / m <= a / n
  {
    var q := a / m;
    assert q >= 0.0 && q * m == a && q * (m - n) >= 0.0;
    QuotientAbove(a, n, q);
  }

  /** Every Bonferroni rejection is a Benjamini-Hochberg rejection. */
  lemma BonferroniIsStricter(p: seq<real>, alpha: real, i: nat)
    requires i < |p| && alpha > 0.0 && Bonferroni(p, alpha)[i]
    ensures Rejected(p, alpha, i)
  {
    var t := Threshold(alpha, 1, |p|);
    assert p[i] <= t;
    assert i in AtMost(p, t);
    SubsetSize({i}, AtMost(p, t));
    assert Reaches(p, alpha, 1);
    LargestIsLargest(p, alpha, |p|);
    ThresholdGrows(alpha, alpha, 1, Largest(p, alpha), |p|);
  }

  // ---- permutations ---------------------------------------------------

  /** `q` lists the p-values of `p` in the order given by `pi`. */
  predicate Rearranges(p: seq<real>, q: seq<real>, pi: seq<nat>) {
    && |pi| == |p| == |q|
    && (forall i :: 0 <= i < |pi| ==> pi[i] < |p| && q[i] == p[pi[i]])
    && (forall i, j :: 0 <= i < j < |pi| ==> pi[i] != pi[j])
    && (forall i :: 0 <= i < |p| ==> i in pi)
  }

  lemma {:induction false} ImageSize(a: set<nat>, pi: seq<nat>)
    requires forall i :: i in a ==> i < |pi|
    requires forall i, j :: 0 <= i < j < |pi| ==> pi[i] != pi[j]
    ensures |set i | i in a :: pi[i]| == |a|
    decreases a
  {
    if a != {} {
      var x :| x in a;
      ImageSize(a - {x}, pi);
      assert (set i | i in a :: pi[i]) == (set i | i in a - {x} :: pi[i]) + {pi[x]};
    }
  }

  lemma CountsRearranged(p: seq<real>, q: seq<real>, pi: seq<nat>, t: real)
    requires Rearranges(p, q, pi)
    ensures Count(q, t) == Count(p, t)
  {
    ImageSize(AtMost(q, t), pi);
    forall i | i in AtMost(p, t)
      ensures i in (set j | j in AtMost(q, t) :: pi[j])
    {
      assert i in pi;
      var j :| 0 <= j < |pi| && pi[j] == i;
      assert j in AtMost(q, t);
    }
    assert (set j | j in AtMost(q, t) :: pi[j]) == AtMost(p, t);
  }

  lemma {:induction false} LargestRearranged(p: seq<real>, q: seq<real>, pi: seq<nat>, alpha: real, bound: nat)
    requires p != [] && Rearranges(p, q, pi)
    ensures LargestUpTo(q, alpha, bound) == LargestUpTo(p, alpha, bound)
  {
    if bound > 0 {
      CountsRearranged(p, q, pi, Threshold(alpha, bound, |p|));
      LargestRearranged(p, q, pi, alpha, bound - 1);
    }
  }

  /** Rearranging the p-values rearranges the verdicts with them. */
  lemma RejectionIsEquivariant(p: seq<real>, q: seq<real>, pi: seq<nat>, alpha: real, i: nat)
    requires p != [] && Rearranges(p, q, pi) && i < |p|
    ensures Rejected(q, alpha, i) <==> Rejected(p, alpha, pi[i])
  {
    LargestRearranged(p, q, pi, alpha, |p|);
  }
}
