/** What each observation of the cross-sectional study holds, told from the prices alone. */
module Spread {
  import opened CrossSection
  import opened Schemas

  // ---- prices ---------------------------------------------------------

  /** Position `k` holds the close of its day: positive, and no later one for that day is. */
  predicate LastGood(series: seq<Close>, k: nat)
    requires k < |series|
  {
    series[k].price > 0.0 && forall j :: k < j < |series| && series[j].day == series[k].day ==> series[j].price <= 0.0
  }

  /** The price of a day is the last positive close given for it. */
  lemma {:induction false} PricesAreLastGood(series: seq<Close>)
    ensures forall d :: d in Prices(series) ==>
              exists k :: 0 <= k < |series| && series[k].day == d && LastGood(series, k) && Prices(series)[d] == series[k].price
    ensures forall k :: 0 <= k < |series| && series[k].price > 0.0 ==> series[k].day in Prices(series)
  {
    if series != [] {
      var n := |series| - 1;
      var before := series[..n];
      PricesAreLastGood(before);
      forall d | d in Prices(series)
        ensures exists k :: 0 <= k < |series| && series[k].day == d && LastGood(series, k)
                            && Prices(series)[d] == series[k].price
      {
        if series[n].day == d && series[n].price > 0.0 {
          assert LastGood(series, n);
        } else {
          var k :| 0 <= k < n && before[k].day == d && LastGood(before, k) && Prices(before)[d] == before[k].price;
          assert LastGood(series, k) by {
            forall j | k < j < |series| && series[j].day == series[k].day
              ensures series[j].price <= 0.0
            {
              assert j < n ==> before[j] == series[j];
            }
          }
        }
      }
    }
  }

  /** Fractional price change of a listing between two days it is priced on. */
  function Growth(l: Listing, from: int, to: int): real
    requires from in Prices(l.series) && to in Prices(l.series)
  {
    PricesArePositive(l.series);
    (Prices(l.series)[to] - Prices(l.series)[from]) / Prices(l.series)[from]
  }

  // ---- who ranks ------------------------------------------------------

  /** The listings priced on all three days. */
  ghost function Pool(universe: seq<Listing>, t: Dates): set<Listing> {
    set l | l in universe && t.past in Prices(l.series) && t.entry in Prices(l.series) && t.exit in Prices(l.series)
  }

  /** Lower trailing return, or the same and an earlier symbol. */
  ghost predicate RanksBelow(l: Listing, m: Listing, t: Dates)
    requires Eligible(l, t) && Eligible(m, t)
  {
    var a, b := Growth(l, t.past, t.entry), Growth(m, t.past, t.entry);
    a < b || (a == b && Before(l.symbol, m.symbol))
  }

  lemma {:induction false} PoolIsRanked(universe: seq<Listing>, t: Dates)
    requires DistinctSymbols(universe)
    ensures |Ranking(universe, t)| == |Pool(universe, t)|
  {
    if universe != [] {
      var before, l := universe[..|universe| - 1], universe[|universe| - 1];
      DistinctFront(universe);
      PoolIsRanked(before, t);
      if Eligible(l, t) {
        assert Pool(universe, t) == Pool(before, t) + {l};
        RankingMembers(before, t);
        PlacedIsRanked(Ranking(before, t), Entry(Trailing(l, t), l.symbol));
      } else {
        assert Pool(universe, t) == Pool(before, t);
      }
    }
  }

  // ---- a leg ----------------------------------------------------------

  /** Distinct listings of the pool, from lowest to highest rank. */
  ghost predicate Leg(universe: seq<Listing>, t: Dates, leg: seq<Listing>) {
    && (forall i :: 0 <= i < |leg| ==> leg[i] in Pool(universe, t))
    && (forall i, j :: 0 <= i < j < |leg| ==> RanksBelow(leg[i], leg[j], t))
  }

  /** Nothing outside ranks above anything inside. */
  ghost predicate IsTop(universe: seq<Listing>, t: Dates, leg: seq<Listing>)
    requires Leg(universe, t, leg)
  {
    forall l, i :: l in Pool(universe, t) && l !in leg && 0 <= i < |leg| ==> RanksBelow(l, leg[i], t)
  }

  /** Nothing outside ranks below anything inside. */
  ghost predicate IsBottom(universe: seq<Listing>, t: Dates, leg: seq<Listing>)
    requires Leg(universe, t, leg)
  {
    forall l, i :: l in Pool(universe, t) && l !in leg && 0 <= i < |leg| ==> RanksBelow(leg[i], l, t)
  }

  ghost predicate Names(symbols: seq<Symbol>, leg: seq<Listing>) {
    |symbols| == |leg| && forall i :: 0 <= i < |leg| ==> symbols[i] == leg[i].symbol
  }

  /** Total forward return of a leg. */
  function ForwardTotal(leg: seq<Listing>, t: Dates): real
    requires forall i :: 0 <= i < |leg| ==> Eligible(leg[i], t)
  {
    if leg == [] then 0.0
    else
      var last := leg[|leg| - 1];
      assert Eligible(last, t);
      ForwardTotal(leg[..|leg| - 1], t) + Growth(last, t.entry, t.exit)
  }

  /** The greater of one and the whole part of the pool times the quantile. */
  predicate LegSize(pool: nat, quantile: real, size: nat) {
    var share := pool as real * quantile;
    if share < 2.0 then size == 1 else size as real <= share < size as real + 1.0
  }

  /** The two legs: the top and the bottom of the pool, of one size. */
  ghost predicate Picks(universe: seq<Listing>, t: Dates, quantile: real, longs: seq<Listing>, shorts: seq<Listing>) {
    && Leg(universe, t, longs) && Leg(universe, t, shorts)
    && LegSize(|Pool(universe, t)|, quantile, |longs|) && |shorts| == |longs|
    && IsTop(universe, t, longs) && IsBottom(universe, t, shorts)
  }

  /** An observation names its legs and reports the difference of their mean forward returns, and that less the cost. */
  ghost predicate Reports(t: Dates, cost: real, o: Observation, longs: seq<Listing>, shorts: seq<Listing>)
    requires longs != [] && shorts != []
    requires forall i :: 0 <= i < |longs| ==> Eligible(longs[i], t)
    requires forall i :: 0 <= i < |shorts| ==> Eligible(shorts[i], t)
  {
    && Names(o.longs, longs) && Names(o.shorts, shorts)
    && o.gross == ForwardTotal(longs, t) / |longs| as real - ForwardTotal(shorts, t) / |shorts| as real
    && o.net == o.gross - cost
  }

  /** An observation with the two legs it was taken on. */
  ghost predicate Told(p: Params, universe: seq<Listing>, t: Dates, o: Observation) {
    exists longs, shorts ::
      Picks(universe, t, p.quantile, longs, shorts) && Reports(t, p.cost, o, longs, shorts)
  }

  // ---- slices of the ranking ------------------------------------------

  ghost function ListingOf(universe: seq<Listing>, t: Dates, e: Entry): (l: Listing)
    requires EntryOf(universe, t, e)
    ensures l in universe && Eligible(l, t) && e == Entry(Trailing(l, t), l.symbol)
  {
    var l :| l in universe && Eligible(l, t) && e == Entry(Trailing(l, t), l.symbol);
    l
  }

  /** The listings of a slice of the ranking. */
  ghost function ListingsOf(universe: seq<Listing>, t: Dates, entries: seq<Entry>): (leg: seq<Listing>)
    requires forall i :: 0 <= i < |entries| ==> EntryOf(universe, t, entries[i])
    ensures |leg| == |entries|
    ensures forall i :: 0 <= i < |leg| ==>
              leg[i] in universe && Eligible(leg[i], t) && entries[i] == Entry(Trailing(leg[i], t), leg[i].symbol)
  {
    seq(|entries|, i requires 0 <= i < |entries| => ListingOf(universe, t, entries[i]))
  }

  lemma LowerIsBelow(l: Listing, m: Listing, t: Dates)
    requires Eligible(l, t) && Eligible(m, t)
    ensures Lower(Entry(Trailing(l, t), l.symbol), Entry(Trailing(m, t), m.symbol)) <==> RanksBelow(l, m, t)
  {
  }

  lemma SliceIsLeg(universe: seq<Listing>, t: Dates, low: nat, high: nat)
    requires DistinctSymbols(universe) && low <= high <= |Ranking(universe, t)|
    ensures forall i :: low <= i < high ==> EntryOf(universe, t, Ranking(universe, t)[i])
    ensures var leg := ListingsOf(universe, t, Ranking(universe, t)[low..high]);
      Leg(universe, t, leg) && Names(Symbols(Ranking(universe, t)[low..high]), leg)
  {
    var ranking := Ranking(universe, t);
    RankingMembers(universe, t);
    forall i | low <= i < high
      ensures EntryOf(universe, t, ranking[i])
    {
      assert ranking[i] in ranking;
    }
    var leg := ListingsOf(universe, t, ranking[low..high]);
    forall i, j | 0 <= i < j < |leg|
      ensures RanksBelow(leg[i], leg[j], t)
    {
      assert Lower(ranking[low + i], ranking[low + j]);
      LowerIsBelow(leg[i], leg[j], t);
    }
  }

  /** A listing outside a slice of the ranking has its entry elsewhere in the ranking. */
  lemma EntryElsewhere(universe: seq<Listing>, t: Dates, low: nat, high: nat, leg: seq<Listing>, l: Listing)
    returns (k: nat)
    requires DistinctSymbols(universe) && low <= high <= |Ranking(universe, t)| && |leg| == high - low
    requires forall i :: 0 <= i < |leg| ==>
               && leg[i] in universe && Eligible(leg[i], t)
               && Ranking(universe, t)[low + i] == Entry(Trailing(leg[i], t), leg[i].symbol)
    requires l in Pool(universe, t) && l !in leg
    ensures k < |Ranking(universe, t)| && !(low <= k < high)
    ensures Ranking(universe, t)[k] == Entry(Trailing(l, t), l.symbol)
  {
    RankingMembers(universe, t);
    var e := Entry(Trailing(l, t), l.symbol);
    assert EntryOf(universe, t, e) && e in Ranking(universe, t);
    k :| 0 <= k < |Ranking(universe, t)| && Ranking(universe, t)[k] == e;
    if low <= k < high {
      SameSymbolSameListing(universe, l, leg[k - low]);
    }
  }

  lemma SameSymbolSameListing(universe: seq<Listing>, l: Listing, m: Listing)
    requires DistinctSymbols(universe) && l in universe && m in universe && l.symbol == m.symbol
    ensures l == m
  {
  }

  lemma TopSlice(universe: seq<Listing>, t: Dates, take: nat) returns (leg: seq<Listing>)
    requires DistinctSymbols(universe) && take <= |Ranking(universe, t)|
    ensures Leg(universe, t, leg) && |leg| == take && IsTop(universe, t, leg)
    ensures Names(Symbols(Ranking(universe, t)[|Ranking(universe, t)| - take..]), leg)
  {
    var n := |Ranking(universe, t)|;
    assert Ranking(universe, t)[n - take..n] == Ranking(universe, t)[n - take..];
    SliceIsLeg(universe, t, n - take, n);
    leg := ListingsOf(universe, t, Ranking(universe, t)[n - take..n]);
    forall l, i | l in Pool(universe, t) && l !in leg && 0 <= i < |leg|
      ensures RanksBelow(l, leg[i], t)
    {
      var k := EntryElsewhere(universe, t, n - take, n, leg, l);
      RankingMembers(universe, t);
      LowerIsBelow(l, leg[i], t);
    }
  }

  lemma BottomSlice(universe: seq<Listing>, t: Dates, take: nat) returns (leg: seq<Listing>)
    requires DistinctSymbols(universe) && take <= |Ranking(universe, t)|
    ensures Leg(universe, t, leg) && |leg| == take && IsBottom(universe, t, leg)
    ensures Names(Symbols(Ranking(universe, t)[..take]), leg)
  {
    assert Ranking(universe, t)[0..take] == Ranking(universe, t)[..take];
    SliceIsLeg(universe, t, 0, take);
    leg := ListingsOf(universe, t, Ranking(universe, t)[0..take]);
    forall l, i | l in Pool(universe, t) && l !in leg && 0 <= i < |leg|
      ensures RanksBelow(leg[i], l, t)
    {
      var k := EntryElsewhere(universe, t, 0, take, leg, l);
      RankingMembers(universe, t);
      LowerIsBelow(leg[i], l, t);
    }
  }

  // ---- the spread -----------------------------------------------------

  lemma {:induction false} SumIsForwardTotal(universe: seq<Listing>, t: Dates, symbols: seq<Symbol>, leg: seq<Listing>)
    requires DistinctSymbols(universe) && Names(symbols, leg)
    requires forall i :: 0 <= i < |leg| ==> leg[i] in universe && Eligible(leg[i], t)
    ensures SumOf(symbols, Forwards(universe, t)) == ForwardTotal(leg, t)
    decreases |leg|
  {
    if leg != [] {
      var n := |leg| - 1;
      SumIsForwardTotal(universe, t, symbols[..n], leg[..n]);
      ForwardOf(universe, t, leg[n]);
      assert Forward(leg[n], t) == Growth(leg[n], t.entry, t.exit);
    }
  }

  lemma TakeIsLegSize(pool: nat, quantile: real)
    requires 0.0 < quantile <= 0.5
    ensures LegSize(pool, quantile, TakeCount(pool, quantile))
  {
  }

  lemma LegsAreTold(universe: seq<Listing>, t: Dates, quantile: real) returns (longs: seq<Listing>, shorts: seq<Listing>)
    requires DistinctSymbols(universe) && 0.0 < quantile <= 0.5 && Ranking(universe, t) != []
    ensures Picks(universe, t, quantile, longs, shorts)
    ensures Names(Legs(Ranking(universe, t), quantile).0, longs) && Names(Legs(Ranking(universe, t), quantile).1, shorts)
  {
    var take := TakeCount(|Ranking(universe, t)|, quantile);
    PoolIsRanked(universe, t);
    longs := TopSlice(universe, t, take);
    shorts := BottomSlice(universe, t, take);
    TakeIsLegSize(|Ranking(universe, t)|, quantile);
  }

  lemma SpreadIsTold(p: Params, universe: seq<Listing>, t: Dates, index: nat, longs: seq<Listing>, shorts: seq<Listing>)
    requires p.Valid() && DistinctSymbols(universe) && longs != [] && shorts != []
    requires Leg(universe, t, longs) && Leg(universe, t, shorts)
    requires Rebalanced(p, Ranking(universe, t), Forwards(universe, t), index).Some?
    requires Names(Legs(Ranking(universe, t), p.quantile).0, longs) && Names(Legs(Ranking(universe, t), p.quantile).1, shorts)
    ensures Reports(t, p.cost, Rebalanced(p, Ranking(universe, t), Forwards(universe, t), index).value, longs, shorts)
  {
    var legs := Legs(Ranking(universe, t), p.quantile);
    SumIsForwardTotal(universe, t, legs.0, longs);
    SumIsForwardTotal(universe, t, legs.1, shorts);
  }

  // ---- every date -----------------------------------------------------

  /** Enough listings are priced on the date's three days, and at least one. */
  ghost predicate Qualifies(p: Params, universe: seq<Listing>, t: Dates) {
    |Pool(universe, t)| >= p.minSymbols && |Pool(universe, t)| >= 1
  }

  lemma DateIsTold(p: Params, universe: seq<Listing>, index: nat)
    requires p.Valid() && DistinctSymbols(universe) && p.lookback <= index && index + p.horizon < |Calendar(universe)|
    ensures var t := DatesAt(p, Calendar(universe), index); var now := ObservedAt(p, universe, index);
      && (now.Some? <==> Qualifies(p, universe, t))
      && (now.Some? ==> now.value.index == index && Told(p, universe, t, now.value))
  {
    var t := DatesAt(p, Calendar(universe), index);
    PoolIsRanked(universe, t);
    if ObservedAt(p, universe, index).Some? {
      var longs, shorts := LegsAreTold(universe, t, p.quantile);
      SpreadIsTold(p, universe, t, index, longs, shorts);
    }
  }

  ghost predicate ReportedAt(obs: seq<Observation>, index: nat) {
    exists k :: 0 <= k < |obs| && obs[k].index == index
  }

  /** The observations of the dates before `upTo`, in order: one for each date that qualifies, as told. */
  ghost predicate AllTold(p: Params, universe: seq<Listing>, upTo: nat, obs: seq<Observation>)
    requires p.Valid() && (upTo <= p.lookback || upTo + p.horizon <= |Calendar(universe)|)
  {
    && (forall k :: 0 <= k < |obs| ==> p.lookback <= obs[k].index < upTo)
    && (forall j, k :: 0 <= j < k < |obs| ==> obs[j].index < obs[k].index)
    && (forall k {:trigger obs[k]} :: 0 <= k < |obs| ==>
          Told(p, universe, DatesAt(p, Calendar(universe), obs[k].index), obs[k]))
    && (forall index: nat {:trigger ReportedAt(obs, index)} :: p.lookback <= index < upTo ==>
          (ReportedAt(obs, index) <==> Qualifies(p, universe, DatesAt(p, Calendar(universe), index))))
  }

  lemma NextDateTold(p: Params, universe: seq<Listing>, index: nat, obs: seq<Observation>, now: Option<Observation>)
    requires p.Valid() && p.lookback <= index && index + p.horizon < |Calendar(universe)|
    requires AllTold(p, universe, index, obs)
    requires var t := DatesAt(p, Calendar(universe), index);
      && (now.Some? <==> Qualifies(p, universe, t))
      && (now.Some? ==> now.value.index == index && Told(p, universe, t, now.value))
    ensures AllTold(p, universe, index + 1, obs + Reported(now))
  {
    var all := obs + Reported(now);
    forall i: nat | p.lookback <= i < index + 1
      ensures ReportedAt(all, i) <==> Qualifies(p, universe, DatesAt(p, Calendar(universe), i))
    {
      assert ReportedAt(obs, i) ==> ReportedAt(all, i) by {
        if ReportedAt(obs, i) {
          var k :| 0 <= k < |obs| && obs[k].index == i;
          assert all[k] == obs[k];
        }
      }
      assert now.Some? ==> all[|obs|] == now.value;
    }
  }

  lemma {:induction false} DatesAreTold(p: Params, universe: seq<Listing>, upTo: nat)
    requires p.Valid() && DistinctSymbols(universe)
    requires upTo <= p.lookback || upTo + p.horizon <= |Calendar(universe)|
    ensures AllTold(p, universe, upTo, Observed(p, universe, upTo))
    decreases upTo
  {
    if upTo > p.lookback {
      DatesAreTold(p, universe, upTo - 1);
      DateIsTold(p, universe, upTo - 1);
      NextDate(p, universe, upTo - 1);
      NextDateTold(p, universe, upTo - 1, Observed(p, universe, upTo - 1), ObservedAt(p, universe, upTo - 1));
    }
  }

  /** Every observation of every study, from the prices alone: one for each date that qualifies, long the listings no
      other of the pool ranks above, short those none ranks below, each leg the quantile's whole part or one, and
      reporting the difference of their mean forward returns. */
  lemma StudyIsTold(p: Params, universe: seq<Listing>)
    requires p.Valid() && DistinctSymbols(universe)
    ensures AllTold(p, universe, Bound(p, |Calendar(universe)|), Study(p, universe))
  {
    DatesAreTold(p, universe, Bound(p, |Calendar(universe)|));
  }
}
