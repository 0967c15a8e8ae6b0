/** Simulated execution against a book snapshot: walking the levels and pricing the fill. */
module PaperBroker {
  import opened Quotients
  import opened Rounding
  import opened Schemas

  datatype Level = Level(price: real, size: real)

  datatype OrderBook = OrderBook(symbol: Symbol, bids: seq<Level>, asks: seq<Level>)
  {
    /** Level bounds of the market schema. */
    predicate Valid() {
      ValidLevels(bids) && ValidLevels(asks)
    }

    function Mid(): Option<real> {
      if bids == [] || asks == [] then None else Some((bids[0].price + asks[0].price) / 2.0)
    }
  }

  predicate ValidLevels(levels: seq<Level>) {
    forall i :: 0 <= i < |levels| ==> levels[i].price > 0.0 && levels[i].size >= 0.0
  }

  predicate NonNegative(levels: seq<Level>) {
    forall i :: 0 <= i < |levels| ==> levels[i].size >= 0.0
  }

  predicate Ascending(levels: seq<Level>) {
    forall i, j :: 0 <= i <= j < |levels| ==> levels[i].price <= levels[j].price
  }

  predicate Descending(levels: seq<Level>) {
    forall i, j :: 0 <= i <= j < |levels| ==> levels[i].price >= levels[j].price
  }

  // ---- amounts taken per level ----------------------------------------

  function Total(amounts: seq<real>): real {
    if amounts == [] then 0.0 else amounts[0] + Total(amounts[1..])
  }

  function Cost(levels: seq<Level>, amounts: seq<real>): real
    requires |levels| == |amounts|
  {
    if levels == [] then 0.0 else amounts[0] * levels[0].price + Cost(levels[1..], amounts[1..])
  }

  /** Any way of taking resting size from the levels. */
  predicate Feasible(levels: seq<Level>, amounts: seq<real>) {
    && |amounts| == |levels|
    && forall i :: 0 <= i < |levels| ==> 0.0 <= amounts[i] <= levels[i].size
  }

  function Depth(levels: seq<Level>): real {
    if levels == [] then 0.0 else levels[0].size + Depth(levels[1..])
  }

  // ---- walking the book -----------------------------------------------

  /** How much of a request one level satisfies. */
  function Take(level: Level, size: real): real {
    if size <= 0.0 || level.size <= 0.0 then 0.0 else Min(size, level.size)
  }

  /** The walk: consume `size` level by level, best price first. */
  function Taken(levels: seq<Level>, size: real): (amounts: seq<real>)
    ensures |amounts| == |levels|
  {
    if levels == [] then []
    else [Take(levels[0], size)] + Taken(levels[1..], size - Take(levels[0], size))
  }

  function FilledSize(levels: seq<Level>, size: real): real {
    Total(Taken(levels, size))
  }

  function Notional(levels: seq<Level>, size: real): real {
    Cost(levels, Taken(levels, size))
  }

  /** The volume-weighted price of a walk. */
  function AveragePrice(levels: seq<Level>, size: real): real
    requires FilledSize(levels, size) > 0.0
  {
    Notional(levels, size) / FilledSize(levels, size)
  }

  /** The book side left behind after `size` has been consumed. */
  function Depleted(levels: seq<Level>, size: real): (left: seq<Level>)
    ensures |left| == |levels| && forall i :: 0 <= i < |levels| ==> left[i].price == levels[i].price
  {
    if levels == [] then []
    else
      var take := Take(levels[0], size);
      [Level(levels[0].price, levels[0].size - take)] + Depleted(levels[1..], size - take)
  }

  lemma WalkUnfolds(levels: seq<Level>, size: real)
    requires levels != []
    ensures var take := Take(levels[0], size);
      && FilledSize(levels, size) == take + FilledSize(levels[1..], size - take)
      && Notional(levels, size) == take * levels[0].price + Notional(levels[1..], size - take)
  {
  }

  lemma {:induction false} NothingRequested(levels: seq<Level>, size: real)
    requires size <= 0.0
    ensures FilledSize(levels, size) == 0.0 && Notional(levels, size) == 0.0
    decreases |levels|
  {
    if levels != [] {
      WalkUnfolds(levels, size);
      NothingRequested(levels[1..], size);
    }
  }

  /** The filled size and volume-weighted price, or None when the order is rejected. */
  method WalkBook(levels: seq<Level>, size: real) returns (result: Option<(real, real)>)
    ensures result.Some? <==> FilledSize(levels, size) > 0.0
    ensures result.Some? ==>
      && result.value.0 == FilledSize(levels, size)
      && result.value.1 == AveragePrice(levels, size)
  {
    if levels == [] {
      return None;
    }
    var remaining, notional, filled := size, 0.0, 0.0;
    var i := 0;
    while i < |levels|
      invariant 0 <= i <= |levels|
      invariant filled + FilledSize(levels[i..], remaining) == FilledSize(levels, size)
      invariant notional + Notional(levels[i..], remaining) == Notional(levels, size)
    {
      if remaining <= 0.0 {
        NothingRequested(levels[i..], remaining);
        break;
      }
      var level := levels[i];
      WalkUnfolds(levels[i..], remaining);
      assert levels[i..][1..] == levels[i + 1..];
      var take := Min(remaining, level.size);
      i := i + 1;
      if take <= 0.0 {
        continue;
      }
      notional := notional + take * level.price;
      filled := filled + take;
      remaining := remaining - take;
    }
    if filled <= 0.0 {
      return None;
    }
    return Some((filled, notional / filled));
  }

  /** The walk fills the whole request or all of the visible depth, whichever is less. */
  lemma {:induction false} FillsRequestOrDepth(levels: seq<Level>, size: real)
    requires NonNegative(levels) && size >= 0.0
    ensures FilledSize(levels, size) == Min(size, Depth(levels))
    ensures Depth(levels) >= 0.0
    ensures Feasible(levels, Taken(levels, size))
    decreases |levels|
  {
    if levels != [] {
      FillsRequestOrDepth(levels[1..], size - Take(levels[0], size));
      assert Taken(levels, size)[1..] == Taken(levels[1..], size - Take(levels[0], size));
    }
  }

  // ---- composition ----------------------------------------------------

  lemma TakeSplits(level: Level, a: real, b: real)
    requires level.size >= 0.0 && a >= 0.0 && b >= 0.0
    ensures var first := Take(level, a); var second := Take(level.(size := level.size - first), b);
      Take(level, a + b) == first + second && 0.0 <= first <= a && 0.0 <= second <= b
  {
  }

  function AddedUp(x: seq<real>, y: seq<real>): (sum: seq<real>)
    requires |x| == |y|
    ensures |sum| == |x|
  {
    if x == [] then [] else [x[0] + y[0]] + AddedUp(x[1..], y[1..])
  }

  /** Level by level, a + b is a and then b against what a left behind. */
  lemma {:induction false} TakenCompose(levels: seq<Level>, a: real, b: real)
    requires NonNegative(levels) && a >= 0.0 && b >= 0.0
    ensures Taken(levels, a + b) == AddedUp(Taken(levels, a), Taken(Depleted(levels, a), b))
    decreases |levels|
  {
    if levels != [] {
      var tail, left := levels[1..], Depleted(levels, a);
      var first := Take(levels[0], a);
      var second := Take(left[0], b);
      TakeSplits(levels[0], a, b);
      assert left[1..] == Depleted(tail, a - first);
      TakenCompose(tail, a - first, b - second);
      assert a + b - (first + second) == a - first + (b - second);
      AddedUpHeads(first, Taken(tail, a - first), second, Taken(left[1..], b - second));
    }
  }

  lemma AddedUpHeads(x: real, xs: seq<real>, y: real, ys: seq<real>)
    requires |xs| == |ys|
    ensures AddedUp([x] + xs, [y] + ys) == [x + y] + AddedUp(xs, ys)
  {
  }

  lemma {:induction false} TotalsAdd(x: seq<real>, y: seq<real>)
    requires |x| == |y|
    ensures Total(AddedUp(x, y)) == Total(x) + Total(y)
  {
    if x != [] {
      TotalsAdd(x[1..], y[1..]);
      assert AddedUp(x, y)[1..] == AddedUp(x[1..], y[1..]);
    }
  }

  lemma {:induction false} CostsAdd(levels: seq<Level>, left: seq<Level>, x: seq<real>, y: seq<real>)
    requires |levels| == |left| == |x| == |y|
    requires forall i :: 0 <= i < |x| ==> left[i].price == levels[i].price
    ensures Cost(levels, AddedUp(x, y)) == Cost(levels, x) + Cost(left, y)
  {
    if levels != [] {
      CostsAdd(levels[1..], left[1..], x[1..], y[1..]);
      assert AddedUp(x, y)[1..] == AddedUp(x[1..], y[1..]);
      Distribute(levels[0].price, x[0], y[0]);
    }
  }

  lemma Distribute(price: real, x: real, y: real)
    ensures (x + y) * price == x * price + y * price
  {
  }

  /** Filling a + b is filling a and then b against the depleted book. */
  lemma WalksCompose(levels: seq<Level>, a: real, b: real)
    requires NonNegative(levels) && a >= 0.0 && b >= 0.0
    ensures FilledSize(levels, a + b) == FilledSize(levels, a) + FilledSize(Depleted(levels, a), b)
    ensures Notional(levels, a + b) == Notional(levels, a) + Notional(Depleted(levels, a), b)
  {
    var left := Depleted(levels, a);
    TakenCompose(levels, a, b);
    TotalsAdd(Taken(levels, a), Taken(left, b));
    CostsAdd(levels, left, Taken(levels, a), Taken(left, b));
  }

  // ---- optimality -----------------------------------------------------

  /** The price of the level at which the walk ends. */
  function MarginalPrice(levels: seq<Level>, size: real): real
    requires levels != []
  {
    if |levels| == 1 || size <= levels[0].size then levels[0].price
    else MarginalPrice(levels[1..], size - levels[0].size)
  }

  /** Everything better than `p` is taken in full and nothing worse than `p` is touched. */
  predicate SplitsAt(levels: seq<Level>, amounts: seq<real>, p: real)
    requires |levels| == |amounts|
  {
    forall i :: 0 <= i < |levels| ==>
      && (levels[i].price < p ==> amounts[i] == levels[i].size)
      && (levels[i].price > p ==> amounts[i] == 0.0)
  }

  lemma {:induction false} WalkSplitsAtMargin(levels: seq<Level>, size: real)
    requires levels != [] && Ascending(levels) && NonNegative(levels) && size >= 0.0
    ensures MarginalPrice(levels, size) >= levels[0].price
    ensures SplitsAt(levels, Taken(levels, size), MarginalPrice(levels, size))
    decreases |levels|
  {
    var head, tail := levels[0], levels[1..];
    var rest := size - Take(head, size);
    assert Taken(levels, size)[1..] == Taken(tail, rest);
    if |levels| > 1 {
      if size <= head.size {
        TakesNothing(tail, rest);
      } else {
        WalkSplitsAtMargin(tail, rest);
      }
    }
  }

  lemma {:induction false} TakesNothing(levels: seq<Level>, size: real)
    requires size <= 0.0
    ensures forall i :: 0 <= i < |levels| ==> Taken(levels, size)[i] == 0.0
    decreases |levels|
  {
    if levels != [] {
      TakesNothing(levels[1..], size);
    }
  }

  /** The same levels priced relative to `p`. */
  function Relative(levels: seq<Level>, p: real): (shifted: seq<Level>)
    ensures |shifted| == |levels|
    ensures forall i :: 0 <= i < |levels| ==> shifted[i] == Level(levels[i].price - p, levels[i].size)
  {
    if levels == [] then [] else [Level(levels[0].price - p, levels[0].size)] + Relative(levels[1..], p)
  }

  lemma {:induction false} RelativeCost(levels: seq<Level>, amounts: seq<real>, p: real, total: real)
    requires |levels| == |amounts| && total == Total(amounts)
    ensures Cost(Relative(levels, p), amounts) == Cost(levels, amounts) - p * total
  {
    if levels != [] {
      assert Relative(levels, p)[1..] == Relative(levels[1..], p);
      RelativeCost(levels[1..], amounts[1..], p, total - amounts[0]);
      Rebase(levels[0].price, p, amounts[0], total);
    }
  }

  lemma Rebase(price: real, p: real, amount: real, total: real)
    ensures amount * (price - p) - p * (total - amount) == amount * price - p * total
  {
  }

  /** Taking all levels priced below zero and none above is the cheapest choice there is. */
  lemma {:induction false} SplitIsCheapest(levels: seq<Level>, greedy: seq<real>, other: seq<real>)
    requires Feasible(levels, other) && |greedy| == |levels| && SplitsAt(levels, greedy, 0.0)
    ensures Cost(levels, greedy) <= Cost(levels, other)
  {
    if levels != [] {
      SplitIsCheapest(levels[1..], greedy[1..], other[1..]);
      CheaperAtLevel(levels[0].price, greedy[0], other[0]);
    }
  }

  lemma CheaperAtLevel(price: real, greedy: real, other: real)
    requires price < 0.0 ==> greedy >= other
    requires price > 0.0 ==> greedy <= other
    ensures greedy * price <= other * price
  {
  }

  /** Relative to its marginal price, the walk costs no more than any feasible allocation. */
  lemma WalkBeatsAtMargin(levels: seq<Level>, size: real, other: seq<real>)
    requires levels != [] && Ascending(levels) && NonNegative(levels) && size >= 0.0 && Feasible(levels, other)
    ensures var base := Relative(levels, MarginalPrice(levels, size));
      Cost(base, Taken(levels, size)) <= Cost(base, other)
  {
    WalkSplitsAtMargin(levels, size);
    SplitIsCheapest(Relative(levels, MarginalPrice(levels, size)), Taken(levels, size), other);
  }

  lemma SameTotalSameOrder(levels: seq<Level>, x: seq<real>, y: seq<real>, p: real, total: real)
    requires |levels| == |x| == |y| && Total(x) == total && Total(y) == total
    requires Cost(Relative(levels, p), x) <= Cost(Relative(levels, p), y)
    ensures Cost(levels, x) <= Cost(levels, y)
  {
    RelativeCost(levels, x, p, total);
    RelativeCost(levels, y, p, total);
  }

  lemma {:induction false} FeasibleWithinDepth(levels: seq<Level>, amounts: seq<real>)
    requires Feasible(levels, amounts)
    ensures 0.0 <= Total(amounts) <= Depth(levels)
  {
    if levels != [] {
      FeasibleWithinDepth(levels[1..], amounts[1..]);
    }
  }

  /** On asks sorted best first, no feasible way of taking the same total is cheaper. */
  lemma AsksFilledAtLeastCost(levels: seq<Level>, other: seq<real>)
    requires Ascending(levels) && Feasible(levels, other)
    ensures FilledSize(levels, Total(other)) == Total(other)
    ensures Notional(levels, Total(other)) <= Cost(levels, other)
  {
    FeasibleWithinDepth(levels, other);
    FillsRequestOrDepth(levels, Total(other));
    if levels != [] {
      WalkBeatsAtMargin(levels, Total(other), other);
      SameTotalSameOrder(levels, Taken(levels, Total(other)), other, MarginalPrice(levels, Total(other)), Total(other));
    }
  }

  // ---- bids mirror asks -----------------------------------------------

  function Mirrored(levels: seq<Level>): (mirror: seq<Level>)
    ensures |mirror| == |levels|
    ensures forall i :: 0 <= i < |levels| ==> mirror[i] == Level(-levels[i].price, levels[i].size)
  {
    if levels == [] then [] else [Level(-levels[0].price, levels[0].size)] + Mirrored(levels[1..])
  }

  lemma {:induction false} MirrorNegatesCost(levels: seq<Level>, amounts: seq<real>)
    requires |levels| == |amounts|
    ensures Cost(Mirrored(levels), amounts) == -Cost(levels, amounts)
  {
    if levels != [] {
      assert Mirrored(levels)[1..] == Mirrored(levels[1..]);
      MirrorNegatesCost(levels[1..], amounts[1..]);
    }
  }

  lemma {:induction false} MirrorWalksAlike(levels: seq<Level>, size: real)
    ensures Taken(Mirrored(levels), size) == Taken(levels, size)
    decreases |levels|
  {
    if levels != [] {
      assert Mirrored(levels)[1..] == Mirrored(levels[1..]);
      MirrorWalksAlike(levels[1..], size - Take(levels[0], size));
    }
  }

  /** On bids sorted best first, no feasible way of taking the same total raises more. */
  lemma BidsFilledAtGreatestProceeds(levels: seq<Level>, other: seq<real>)
    requires Descending(levels) && Feasible(levels, other)
    ensures FilledSize(levels, Total(other)) == Total(other)
    ensures Notional(levels, Total(other)) >= Cost(levels, other)
  {
    AsksFilledAtLeastCost(Mirrored(levels), other);
    MirrorWalksAlike(levels, Total(other));
    MirrorNegatesCost(levels, other);
    MirrorNegatesCost(levels, Taken(levels, Total(other)));
  }

  // ---- price impact ---------------------------------------------------

  lemma {:induction false} ZeroAmounts(levels: seq<Level>, amounts: seq<real>)
    requires |amounts| == |levels| && forall i :: 0 <= i < |amounts| ==> amounts[i] == 0.0
    ensures Total(amounts) == 0.0 && Cost(levels, amounts) == 0.0
  {
    if levels != [] {
      ZeroAmounts(levels[1..], amounts[1..]);
    }
  }

  predicate NoBetterForBuyer(small: (real, real), large: (real, real)) {
    small.0 > 0.0 && large.0 > 0.0 && small.1 / small.0 <= large.1 / large.0
  }

  predicate NoBetterForSeller(small: (real, real), large: (real, real)) {
    small.0 > 0.0 && large.0 > 0.0 && small.1 / small.0 >= large.1 / large.0
  }

  /** `c` is what an outcome cost above paying `p` for all of it. */
  predicate CostAbove(outcome: (real, real), p: real, c: real) {
    c == outcome.1 - p * outcome.0
  }

  lemma RelativeIsCostAbove(levels: seq<Level>, amounts: seq<real>, p: real, outcome: (real, real))
    requires |levels| == |amounts| && outcome == (Total(amounts), Cost(levels, amounts))
    ensures CostAbove(outcome, p, Cost(Relative(levels, p), amounts))
  {
    RelativeCost(levels, amounts, p, outcome.0);
  }

  lemma Mediant(small: (real, real), large: (real, real), p: real, c: real, c': real)
    requires 0.0 < small.0 <= large.0
    requires CostAbove(small, p, c) && CostAbove(large, p, c')
    requires c <= 0.0 && c <= c'
    ensures NoBetterForBuyer(small, large)
  {
    QuotientBelow(small.1, small.0, p);
    var a := small.1 / small.0;
    assert a * small.0 == small.1;
    var slack := (p - a) * (large.0 - small.0);
    assert slack >= 0.0;
    assert p * large.0 - p * small.0 - a * large.0 + a * small.0 == slack;
    QuotientAbove(large.1, large.0, a);
  }

  function Outcome(levels: seq<Level>, size: real): (real, real) {
    (FilledSize(levels, size), Notional(levels, size))
  }

  lemma AveragesInOrder(levels: seq<Level>, x: seq<real>, y: seq<real>, p: real,
                        small: (real, real), large: (real, real))
    requires |levels| == |x| == |y|
    requires small == (Total(x), Cost(levels, x)) && large == (Total(y), Cost(levels, y))
    requires 0.0 < small.0 <= large.0
    requires Cost(Relative(levels, p), x) <= 0.0
    requires Cost(Relative(levels, p), x) <= Cost(Relative(levels, p), y)
    ensures NoBetterForBuyer(small, large)
  {
    RelativeIsCostAbove(levels, x, p, small);
    RelativeIsCostAbove(levels, y, p, large);
    Mediant(small, large, p, Cost(Relative(levels, p), x), Cost(Relative(levels, p), y));
  }

  /** The larger a buy, the worse its average price: asks only get dearer. */
  lemma AveragePriceWorsens(levels: seq<Level>, size: real, larger: real)
    requires Ascending(levels) && NonNegative(levels) && 0.0 < size <= larger && Depth(levels) > 0.0
    ensures NoBetterForBuyer(Outcome(levels, size), Outcome(levels, larger))
  {
    FillsRequestOrDepth(levels, size);
    FillsRequestOrDepth(levels, larger);
    var nothing := seq(|levels|, i => 0.0);
    var p := MarginalPrice(levels, size);
    ZeroAmounts(Relative(levels, p), nothing);
    WalkBeatsAtMargin(levels, size, nothing);
    WalkBeatsAtMargin(levels, size, Taken(levels, larger));
    AveragesInOrder(levels, Taken(levels, size), Taken(levels, larger), p,
                    Outcome(levels, size), Outcome(levels, larger));
  }

  /** The larger a sell, the worse its average price: bids only get cheaper. */
  lemma AverageProceedsWorsen(levels: seq<Level>, size: real, larger: real)
    requires Descending(levels) && NonNegative(levels) && 0.0 < size <= larger && Depth(levels) > 0.0
    ensures NoBetterForSeller(Outcome(levels, size), Outcome(levels, larger))
  {
    MirroredBuyer(levels, size, larger);
    NegatedQuotients(Outcome(levels, size), Outcome(levels, larger));
  }

  /** A sell is a buy of the mirrored levels. */
  lemma MirroredBuyer(levels: seq<Level>, size: real, larger: real)
    requires Descending(levels) && NonNegative(levels) && 0.0 < size <= larger && Depth(levels) > 0.0
    ensures var small, large := Outcome(levels, size), Outcome(levels, larger);
      NoBetterForBuyer((small.0, -small.1), (large.0, -large.1))
  {
    MirrorKeepsDepth(levels);
    AveragePriceWorsens(Mirrored(levels), size, larger);
    MirrorOutcome(levels, size);
    MirrorOutcome(levels, larger);
  }

  lemma MirrorOutcome(levels: seq<Level>, size: real)
    ensures Outcome(Mirrored(levels), size) == (Outcome(levels, size).0, -Outcome(levels, size).1)
  {
    MirrorWalksAlike(levels, size);
    MirrorNegatesCost(levels, Taken(levels, size));
  }

  lemma {:induction false} MirrorKeepsDepth(levels: seq<Level>)
    ensures Depth(Mirrored(levels)) == Depth(levels)
  {
    if levels != [] {
      assert Mirrored(levels)[1..] == Mirrored(levels[1..]);
      MirrorKeepsDepth(levels[1..]);
    }
  }

  lemma NegatedQuotients(small: (real, real), large: (real, real))
    requires NoBetterForBuyer((small.0, -small.1), (large.0, -large.1))
    ensures NoBetterForSeller(small, large)
  {
  }

  // ---- pricing the fill -----------------------------------------------

  datatype Execution = Rejected | Malformed | Executed(fill: Fill)

  function LevelsFor(book: OrderBook, side: Side): seq<Level> {
    if side == Buy then book.asks else book.bids
  }

  /** The slippage allowance moves the book price against the taker. */
  function FillPrice(average: real, side: Side, slippageBps: real): real {
    RoundHalfUp(Slipped(average, side, slippageBps))
  }

  function Slipped(average: real, side: Side, slippageBps: real): real {
    average * (if side == Buy then 1.0 + slippageBps / 10000.0 else 1.0 - slippageBps / 10000.0)
  }

  function Fee(size: real, price: real, feeBps: real): real {
    RoundHalfUp(size * price * feeBps / 10000.0)
  }

  /** One order against the cached book. `recent` says the book is within the age limit; a price that
      rounds to zero or below fails the fill schema, which is not a rejection. */
  function Simulated(book: Option<OrderBook>, recent: bool, order: Order, slippageBps: real, feeBps: real): Execution {
    if book == None || !recent then Rejected
    else
      var levels := LevelsFor(book.value, order.side);
      var filled := FilledSize(levels, order.size);
      if filled <= 0.0 then Rejected
      else
        var price := FillPrice(AveragePrice(levels, order.size), order.side, slippageBps);
        if price <= 0.0 then Malformed
        else
          Executed(Fill(order.id, order.symbol, order.side, filled, price, Fee(filled, price, feeBps)))
  }

  /** An executed fill answers its order, is valid, and never exceeds the order or the visible depth. */
  lemma ExecutedFillIsBounded(book: Option<OrderBook>, recent: bool, order: Order, slippageBps: real, feeBps: real)
    requires book.Some? ==> book.value.Valid()
    requires order.size > 0.0 && feeBps >= 0.0
    ensures var e := Simulated(book, recent, order, slippageBps, feeBps);
      e.Executed? ==>
        && e.fill.Valid()
        && e.fill.orderId == order.id && e.fill.symbol == order.symbol && e.fill.side == order.side
        && e.fill.size == Min(order.size, Depth(LevelsFor(book.value, order.side)))
    ensures var e := Simulated(book, recent, order, slippageBps, feeBps);
      e.Rejected? <==> book == None || !recent || Depth(LevelsFor(book.value, order.side)) <= 0.0
  {
    if book.Some? {
      var levels := LevelsFor(book.value, order.side);
      FillsRequestOrDepth(levels, order.size);
      var e := Simulated(book, recent, order, slippageBps, feeBps);
      if e.Executed? {
        FeeIsNonNegative(e.fill.size, e.fill.price, feeBps);
      }
    }
  }

  /** What keeps an order from executing: no book, a stale one, no depth on the side it takes, or a price that
      rounds to zero or below. */
  predicate Unexecutable(book: Option<OrderBook>, recent: bool, order: Order, slippageBps: real) {
    || book == None || !recent || Depth(LevelsFor(book.value, order.side)) <= 0.0
    || FilledSize(LevelsFor(book.value, order.side), order.size) <= 0.0
    || FillPrice(AveragePrice(LevelsFor(book.value, order.side), order.size), order.side, slippageBps) <= 0.0
  }

  lemma ExecutesIff(book: Option<OrderBook>, recent: bool, order: Order, slippageBps: real, feeBps: real)
    requires (book.Some? ==> book.value.Valid()) && order.size > 0.0
    ensures Simulated(book, recent, order, slippageBps, feeBps).Executed?
            <==> !Unexecutable(book, recent, order, slippageBps)
    ensures book.Some? && Depth(LevelsFor(book.value, order.side)) > 0.0 ==>
              FilledSize(LevelsFor(book.value, order.side), order.size) > 0.0
  {
    if book.Some? {
      FillsRequestOrDepth(LevelsFor(book.value, order.side), order.size);
    }
  }

  lemma FeeIsNonNegative(size: real, price: real, feeBps: real)
    requires size > 0.0 && price > 0.0 && feeBps >= 0.0
    ensures Fee(size, price, feeBps) >= 0.0
  {
    var notional := size * price;
    assert notional > 0.0;
    var charge := notional * feeBps;
    assert charge >= 0.0;
  }

  /** A buy never prices through the best ask (whose price is on the exchange's grid). */
  lemma BuyNeverBeatsBestAsk(levels: seq<Level>, size: real, slippageBps: real)
    requires ValidLevels(levels) && Ascending(levels) && size > 0.0 && Depth(levels) > 0.0
    requires OnGrid(levels[0].price) && slippageBps >= 0.0
    ensures FilledSize(levels, size) > 0.0
    ensures FillPrice(AveragePrice(levels, size), Buy, slippageBps) >= levels[0].price
  {
    FillsRequestOrDepth(levels, size);
    NoCheaperThanBest(levels, Taken(levels, size), levels[0].price, Outcome(levels, size));
    SlippageAddsToPrice(AveragePrice(levels, size), levels[0].price, slippageBps);
  }

  lemma SlippageAddsToPrice(average: real, best: real, slippageBps: real)
    requires average >= best >= 0.0 && OnGrid(best) && slippageBps >= 0.0
    ensures FillPrice(average, Buy, slippageBps) >= best
  {
    SlippageRaises(average, slippageBps);
    RoundingKeepsOrderWithGrid(Slipped(average, Buy, slippageBps), best);
  }

  lemma SlippageRaises(average: real, slippageBps: real)
    requires average >= 0.0 && slippageBps >= 0.0
    ensures Slipped(average, Buy, slippageBps) >= average
  {
    assert average * (slippageBps / 10000.0) >= 0.0;
  }

  lemma NoCheaperThanBest(levels: seq<Level>, amounts: seq<real>, best: real, outcome: (real, real))
    requires Feasible(levels, amounts) && forall i :: 0 <= i < |levels| ==> levels[i].price >= best
    requires outcome == (Total(amounts), Cost(levels, amounts)) && outcome.0 > 0.0
    ensures outcome.1 / outcome.0 >= best
  {
    CostAtLeast(levels, amounts, best, outcome.0);
    QuotientAbove(outcome.1, outcome.0, best);
  }

  lemma {:induction false} CostAtLeast(levels: seq<Level>, amounts: seq<real>, best: real, total: real)
    requires Feasible(levels, amounts) && forall i :: 0 <= i < |levels| ==> levels[i].price >= best
    requires total == Total(amounts)
    ensures Cost(levels, amounts) >= best * total
  {
    if levels != [] {
      CostAtLeast(levels[1..], amounts[1..], best, total - amounts[0]);
      OneMoreAtLeast(levels[0].price, amounts[0], best, total);
    }
  }

  lemma OneMoreAtLeast(price: real, amount: real, best: real, total: real)
    requires price >= best && amount >= 0.0
    ensures amount * price + best * (total - amount) >= best * total
  {
    assert amount * (price - best) >= 0.0;
  }

  /** Nor does a sell ever price above a best bid on the grid, whatever its slippage. */
  lemma SellNeverBeatsBestBid(levels: seq<Level>, size: real, slippageBps: real)
    requires ValidLevels(levels) && Descending(levels) && size > 0.0 && Depth(levels) > 0.0
    requires OnGrid(levels[0].price) && slippageBps >= 0.0
    ensures FilledSize(levels, size) > 0.0
    ensures FillPrice(AveragePrice(levels, size), Sell, slippageBps) <= levels[0].price
  {
    FillsRequestOrDepth(levels, size);
    NoDearerThanBest(levels, Taken(levels, size), levels[0].price, Outcome(levels, size));
    SlippageTakesFromPrice(AveragePrice(levels, size), levels[0].price, slippageBps);
  }

  lemma NoDearerThanBest(levels: seq<Level>, amounts: seq<real>, best: real, outcome: (real, real))
    requires Feasible(levels, amounts) && forall i :: 0 <= i < |levels| ==> 0.0 <= levels[i].price <= best
    requires outcome == (Total(amounts), Cost(levels, amounts)) && outcome.0 > 0.0
    ensures 0.0 <= outcome.1 / outcome.0 <= best
  {
    CostAtLeast(levels, amounts, 0.0, outcome.0);
    QuotientAbove(outcome.1, outcome.0, 0.0);
    MirrorNegatesCost(levels, amounts);
    CostAtLeast(Mirrored(levels), amounts, -best, outcome.0);
    QuotientBelow(outcome.1, outcome.0, best);
  }

  lemma SlippageTakesFromPrice(average: real, best: real, slippageBps: real)
    requires 0.0 <= average <= best && OnGrid(best) && slippageBps >= 0.0
    ensures FillPrice(average, Sell, slippageBps) <= best
  {
    SlippageLowers(average, slippageBps);
    RoundingKeepsOrderWithGrid(Slipped(average, Sell, slippageBps), best);
  }

  lemma SlippageLowers(average: real, slippageBps: real)
    requires average >= 0.0 && slippageBps >= 0.0
    ensures Slipped(average, Sell, slippageBps) <= average
  {
    assert average * (slippageBps / 10000.0) >= 0.0;
  }

  // ---- the fill in basis points ---------------------------------------

  /** `r` is the multiple of a hundred-millionth nearest to x, ties going away from zero. */
  predicate NearestStep(x: real, r: real) {
    && (r * 100000000.0).Floor as real == r * 100000000.0
    && if x >= 0.0 then -0.000000005 < r - x <= 0.000000005 else -0.000000005 <= r - x < 0.000000005
  }

  lemma RoundsToNearest(x: real)
    ensures NearestStep(x, RoundHalfUp(x))
  {
    var n := if x >= 0.0 then (x * STEPS + 0.5).Floor else -(-x * STEPS + 0.5).Floor;
    assert RoundHalfUp(x) == n as real / STEPS;
    assert RoundHalfUp(x) * STEPS == n as real;
  }

  /** A price moved against the taker by a slippage. */
  predicate MovedBy(average: real, side: Side, slippageBps: real, price: real) {
    price * 10000.0 == average * (if side == Buy then 10000.0 + slippageBps else 10000.0 - slippageBps)
  }

  /** A rate charged on a size at a price. */
  predicate ChargedOn(size: real, price: real, feeBps: real, fee: real) {
    fee * 10000.0 == size * price * feeBps
  }

  lemma SlippedIsMoved(average: real, side: Side, slippageBps: real)
    ensures MovedBy(average, side, slippageBps, Slipped(average, side, slippageBps))
  {
    if side == Buy {
      assert (1.0 + slippageBps / 10000.0) * 10000.0 == 10000.0 + slippageBps;
    } else {
      assert (1.0 - slippageBps / 10000.0) * 10000.0 == 10000.0 - slippageBps;
    }
  }

  lemma FeeIsCharged(size: real, price: real, feeBps: real) returns (fee: real)
    ensures ChargedOn(size, price, feeBps, fee) && Fee(size, price, feeBps) == RoundHalfUp(fee)
  {
    fee := size * price * feeBps / 10000.0;
  }

  /** A fill is priced at the walked average moved against the taker by the slippage, and its fee charged on what was
      filled at that price, each rounded to the nearest step. */
  ghost predicate PricedAs(average: real, fill: Fill, slippageBps: real, feeBps: real) {
    && (exists price :: MovedBy(average, fill.side, slippageBps, price) && NearestStep(price, fill.price))
    && (exists fee :: ChargedOn(fill.size, fill.price, feeBps, fee) && NearestStep(fee, fill.fee))
  }

  lemma FillIsPriced(average: real, fill: Fill, slippageBps: real, feeBps: real)
    requires fill.price == FillPrice(average, fill.side, slippageBps)
    requires fill.fee == Fee(fill.size, fill.price, feeBps)
    ensures PricedAs(average, fill, slippageBps, feeBps)
  {
    SlippedIsMoved(average, fill.side, slippageBps);
    RoundsToNearest(Slipped(average, fill.side, slippageBps));
    var fee := FeeIsCharged(fill.size, fill.price, feeBps);
    RoundsToNearest(fee);
  }

  /** The average price at which a size costs what the walk took. */
  predicate Averages(average: real, size: real, cost: real) {
    average * size == cost
  }

  /** Every execution: the walked levels are the side the order takes, the walked notional is average times size,
      and the fill is priced and charged from them. */
  lemma ExecutionIsPriced(book: Option<OrderBook>, recent: bool, order: Order, slippageBps: real, feeBps: real)
    requires Simulated(book, recent, order, slippageBps, feeBps).Executed?
    ensures var fill := Simulated(book, recent, order, slippageBps, feeBps).fill;
      && book.Some?
      && var levels := if order.side == Buy then book.value.asks else book.value.bids;
      && exists average ::
           && Averages(average, fill.size, Cost(levels, Taken(levels, order.size)))
           && PricedAs(average, fill, slippageBps, feeBps)
  {
    var fill := Simulated(book, recent, order, slippageBps, feeBps).fill;
    var levels := LevelsFor(book.value, order.side);
    var average := AveragePrice(levels, order.size);
    FillIsPriced(average, fill, slippageBps, feeBps);
    AverageTimesSize(Notional(levels, order.size), fill.size, average);
  }

  lemma AverageTimesSize(notional: real, size: real, average: real)
    requires size != 0.0 && average == notional / size
    ensures Averages(average, size, notional)
  {
  }

  // ---- the mutable broker ---------------------------------------------

  class Broker {
    var books: map<Symbol, OrderBook>
    var fillsPublished: nat
    var ordersRejected: nat
    const slippageBps: real
    const feeBps: real

    constructor (slippageBps: real, feeBps: real)
      ensures books == map[] && fillsPublished == ordersRejected == 0
      ensures this.slippageBps == slippageBps && this.feeBps == feeBps
    {
      books, fillsPublished, ordersRejected := map[], 0, 0;
      this.slippageBps, this.feeBps := slippageBps, feeBps;
    }

    function CachedBook(s: Symbol): Option<OrderBook>
      reads this
    {
      if s in books then Some(books[s]) else None
    }

    method CacheBook(book: OrderBook)
      modifies this`books
      ensures books == old(books)[book.symbol := book]
    {
      books := books[book.symbol := book];
    }

    method Execute(order: Order, recent: bool) returns (e: Execution)
      modifies this`fillsPublished, this`ordersRejected
      ensures e == Simulated(CachedBook(order.symbol), recent, order, slippageBps, feeBps)
      ensures fillsPublished == old(fillsPublished) + (if e.Executed? then 1 else 0)
      ensures ordersRejected == old(ordersRejected) + (if e.Rejected? then 1 else 0)
    {
      if order.symbol !in books || !recent {
        ordersRejected := ordersRejected + 1;
        return Rejected;
      }
      var levels := LevelsFor(books[order.symbol], order.side);
      var walked := WalkBook(levels, order.size);
      if walked == None {
        ordersRejected := ordersRejected + 1;
        return Rejected;
      }
      var price := FillPrice(walked.value.1, order.side, slippageBps);
      if price <= 0.0 {
        return Malformed;
      }
      var fee := Fee(walked.value.0, price, feeBps);
      fillsPublished := fillsPublished + 1;
      e := Executed(Fill(order.id, order.symbol, order.side, walked.value.0, price, fee));
    }
  }
}
