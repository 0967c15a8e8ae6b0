/** The delta-neutral carry study: every entry point over a funding series. */
module Basis {
  import opened Schemas
  import S = Sampling

  datatype FundingPoint = FundingPoint(rate: real, premium: Option<real>)

  datatype CarryTrade = CarryTrade(
    index: nat,
    fundingCollected: real,
    basisChange: real,
    grossReturn: real,
    netReturn: real,
    independent: bool)

  function PremiumAt(funding: seq<FundingPoint>, i: nat): real
    requires i < |funding|
  {
    if funding[i].premium.Some? then funding[i].premium.value else 0.0
  }

  /** Funding settled over a stretch of the series. */
  function TotalRate(funding: seq<FundingPoint>): real {
    if funding == [] then 0.0 else TotalRate(funding[..|funding| - 1]) + funding[|funding| - 1].rate
  }

  /** The meaning of one trade: the funding of its own window, less what the basis moved against it. */
  function WindowFunding(funding: seq<FundingPoint>, i: nat, hours: nat): real
    requires i + hours <= |funding|
  {
    TotalRate(funding[i..i + hours])
  }

  function GrossAt(funding: seq<FundingPoint>, i: nat, hours: nat): real
    requires i + hours < |funding|
  {
    WindowFunding(funding, i, hours) - (PremiumAt(funding, i + hours) - PremiumAt(funding, i))
  }

  lemma {:induction false} TotalRateSplits(funding: seq<FundingPoint>, i: nat, j: nat)
    requires i <= j <= |funding|
    ensures TotalRate(funding[..j]) == TotalRate(funding[..i]) + TotalRate(funding[i..j])
    decreases j
  {
    if i < j {
      TotalRateSplits(funding, i, j - 1);
      assert funding[..j][..j - 1] == funding[..j - 1];
      assert funding[i..j][..j - i - 1] == funding[i..j - 1];
    } else {
      assert funding[i..j] == [];
    }
  }

  /** Ascending integers from a up to b. */
  function Range(a: int, b: int): (r: seq<int>)
    ensures |r| == (if a <= b then b - a else 0) && forall i :: 0 <= i < |r| ==> r[i] == a + i
    decreases b - a
  {
    if a >= b then [] else [a] + Range(a + 1, b)
  }

  function TradeMarks(n: nat, hours: nat): seq<bool> {
    S.Marks(Range(0, n - hours), hours, -1)
  }

  /** A trade entered at bar i reports that window's funding, premium change and returns. */
  predicate Accounts(funding: seq<FundingPoint>, hours: nat, cost: real, i: nat, t: CarryTrade)
    requires i + hours < |funding|
  {
    && t.index == i
    && t.fundingCollected == WindowFunding(funding, i, hours)
    && t.basisChange == (if funding[i + hours].premium.Some? then funding[i + hours].premium.value else 0.0)
                        - (if funding[i].premium.Some? then funding[i].premium.value else 0.0)
    && t.grossReturn == t.fundingCollected - t.basisChange == GrossAt(funding, i, hours)
    && t.netReturn == t.grossReturn - cost
  }

  /** The trades with prefix sums and a running "next allowed" bar; none when history is too short. */
  method Run(funding: seq<FundingPoint>, hours: nat, cost: real) returns (trades: seq<CarryTrade>)
    requires hours >= 1
    ensures |trades| == if |funding| <= hours then 0 else |funding| - hours
    ensures forall i :: 0 <= i < |trades| ==>
              Accounts(funding, hours, cost, i, trades[i]) && trades[i].independent == TradeMarks(|funding|, hours)[i]
  {
    trades := [];
    if |funding| <= hours {
      return;
    }
    var cumulative := PrefixSums(funding);
    var next := -1;
    var index := 0;
    var last := |funding| - hours;
    ghost var marks := TradeMarks(|funding|, hours);
    while index < last
      invariant 0 <= index <= last == |marks| && |trades| == index
      invariant S.Marks(Range(index, last), hours, next) == marks[index..]
      invariant forall i :: 0 <= i < index ==>
                  Accounts(funding, hours, cost, i, trades[i]) && trades[i].independent == marks[i]
    {
      var independent := index >= next;
      var trade := TradeAt(funding, hours, cost, index, cumulative, independent);
      MarksUnfold(index, last, hours, next);
      assert marks[index] == independent && marks[index..][1..] == marks[index + 1..];
      if independent {
        next := index + hours;
      }
      trades := trades + [trade];
      index := index + 1;
    }
  }

  method TradeAt(funding: seq<FundingPoint>, hours: nat, cost: real, index: nat, cumulative: seq<real>, independent: bool)
    returns (trade: CarryTrade)
    requires index + hours < |funding| && |cumulative| == |funding| + 1
    requires forall i :: 0 <= i <= |funding| ==> cumulative[i] == TotalRate(funding[..i])
    ensures Accounts(funding, hours, cost, index, trade) && trade.independent == independent
  {
    var collected := cumulative[index + hours] - cumulative[index];
    TotalRateSplits(funding, index, index + hours);
    var change := PremiumAt(funding, index + hours) - PremiumAt(funding, index);
    var gross := collected - change;
    trade := CarryTrade(index, collected, change, gross, gross - cost, independent);
  }

  lemma MarksUnfold(index: int, last: int, hours: nat, next: int)
    requires index < last
    ensures var marks := S.Marks(Range(index, last), hours, next);
      && |marks| == last - index
      && marks[0] == (index >= next)
      && marks[1..] == S.Marks(Range(index + 1, last), hours, if index >= next then index + hours else next)
  {
  }

  method PrefixSums(funding: seq<FundingPoint>) returns (cumulative: seq<real>)
    ensures |cumulative| == |funding| + 1
    ensures forall i :: 0 <= i <= |funding| ==> cumulative[i] == TotalRate(funding[..i])
  {
    cumulative := [0.0];
    var k := 0;
    while k < |funding|
      invariant 0 <= k <= |funding| && |cumulative| == k + 1
      invariant forall i :: 0 <= i <= k ==> cumulative[i] == TotalRate(funding[..i])
    {
      assert funding[..k + 1][..k] == funding[..k];
      cumulative := cumulative + [cumulative[k] + funding[k].rate];
      k := k + 1;
    }
  }

  // ---- the marked windows tile ----------------------------------------

  /** Summed gross return of the marked trades from `from` on. */
  function MarkedGross(funding: seq<FundingPoint>, hours: nat, from: nat, marks: seq<bool>): real
    requires from + |marks| + hours <= |funding|
    decreases |marks|
  {
    if marks == [] then 0.0
    else (if marks[0] then GrossAt(funding, from, hours) else 0.0) + MarkedGross(funding, hours, from + 1, marks[1..])
  }

  /** What holding from the first bar to bar x would have made. */
  function HeldTo(funding: seq<FundingPoint>, x: nat): real
    requires x < |funding|
  {
    TotalRate(funding[..x]) - PremiumAt(funding, x)
  }

  lemma GrossIsDifference(funding: seq<FundingPoint>, i: nat, hours: nat)
    requires i + hours < |funding|
    ensures GrossAt(funding, i, hours) == HeldTo(funding, i + hours) - HeldTo(funding, i)
  {
    TotalRateSplits(funding, i, i + hours);
  }

  /** Where the chain of windows starting at `next` first reaches `last`. */
  function ChainEnd(next: nat, last: nat, hours: nat): (e: nat)
    requires hours >= 1
    ensures e >= last && e >= next && (next <= last ==> e < last + hours)
    decreases last - next
  {
    if next >= last then next else ChainEnd(next + hours, last, hours)
  }

  lemma OneMoreWindow(hours: nat, n: nat)
    ensures hours * (1 + n) == hours + hours * n
  {
  }

  /** The chain from `next` on: its marked windows end at `e`, and their gross is what holding over it would have made. */
  predicate Chained(funding: seq<FundingPoint>, hours: nat, from: nat, next: nat, marks: seq<bool>, e: nat) {
    && from + |marks| + hours <= |funding| && next <= e < |funding|
    && e == next + hours * S.Chosen(marks)
    && MarkedGross(funding, hours, from, marks) == HeldTo(funding, e) - HeldTo(funding, next)
  }

  lemma ChainTakes(funding: seq<FundingPoint>, hours: nat, from: nat, marks: seq<bool>, e: nat)
    requires marks != [] && marks[0] && Chained(funding, hours, from + 1, from + hours, marks[1..], e)
    ensures Chained(funding, hours, from, from, marks, e)
  {
    GrossIsDifference(funding, from, hours);
    OneMoreWindow(hours, S.Chosen(marks[1..]));
  }

  lemma ChainSkips(funding: seq<FundingPoint>, hours: nat, from: nat, next: nat, marks: seq<bool>, e: nat)
    requires marks != [] && !marks[0] && Chained(funding, hours, from + 1, next, marks[1..], e)
    ensures Chained(funding, hours, from, next, marks, e)
  {
  }

  lemma {:induction false} MarkedChain(funding: seq<FundingPoint>, hours: nat, from: nat, last: nat, next: nat)
    requires hours >= 1 && from <= last && last + hours == |funding|
    requires from <= next < from + hours || (from == last && next < last + hours)
    requires from <= next
    ensures Chained(funding, hours, from, next, S.Marks(Range(from, last), hours, next), ChainEnd(next, last, hours))
    decreases last - from
  {
    if from < last {
      var marks := S.Marks(Range(from, last), hours, next);
      MarksUnfold(from, last, hours, next);
      if from == next {
        MarkedChain(funding, hours, from + 1, last, from + hours);
        ChainTakes(funding, hours, from, marks, ChainEnd(from + hours, last, hours));
      } else {
        MarkedChain(funding, hours, from + 1, last, next);
        ChainSkips(funding, hours, from, next, marks, ChainEnd(next, last, hours));
      }
    }
  }

  /** Main result: the marked windows tile the series end to end, so their summed gross return telescopes to
      the total funding less the end-to-end premium change, over a stretch of exactly sample-size times
      holding-period bars that leaves less than one window unused. */
  lemma MarkedWindowsTelescope(funding: seq<FundingPoint>, hours: nat)
    requires hours >= 1 && |funding| > hours
    ensures var marks := TradeMarks(|funding|, hours); var e := hours * S.Chosen(marks);
      && |funding| - hours <= e < |funding|
      && MarkedGross(funding, hours, 0, marks)
         == TotalRate(funding[..e]) - (PremiumAt(funding, e) - PremiumAt(funding, 0))
  {
    var last := |funding| - hours;
    var marks := TradeMarks(|funding|, hours);
    assert marks == S.Marks(Range(0, last), hours, 0);
    MarkedChain(funding, hours, 0, last, 0);
    assert funding[..0] == [];
  }
}
