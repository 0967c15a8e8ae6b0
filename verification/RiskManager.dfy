/** The risk manager: vetoes, and sizing an order to the tightest of three limits. */
module RiskManager {
  import opened Rounding
  import opened Schemas

  datatype Action = OpenLong | OpenShort | Close | Hold
  {
    function Direction(): Direction {
      match this
      case OpenLong => Long
      case OpenShort => Short
      case _ => Flat
    }
  }

  datatype Decision = Decision(
    symbol: Symbol,
    action: Action,
    weightedConfidence: real,
    referencePrice: Option<real>,
    suggestedStop: Option<real>,
    suggestedTakeProfit: Option<real>)

  datatype Limits = Limits(
    maxPositionNotional: real,
    maxPortfolioLeverage: real,
    maxOpenPositions: nat,
    dailyLossLimitPct: real,
    riskPerTradePct: real,
    minConfidence: real,
    defaultStopDistancePct: real,
    minOrderNotional: real,
    minStopDistancePct: real,
    trailingStopPct: Option<real>)
  {
    /** The bounds the settings schema enforces. */
    predicate Valid() {
      && maxPositionNotional > 0.0 && maxPortfolioLeverage > 0.0 && maxOpenPositions >= 1
      && dailyLossLimitPct > 0.0 && riskPerTradePct > 0.0 && defaultStopDistancePct > 0.0
      && minOrderNotional > 0.0 && minStopDistancePct > 0.0
    }
  }

  /** The parts of a portfolio snapshot that risk reads. */
  datatype Snapshot = Snapshot(
    equity: real,
    grossNotional: real,
    dayPnlPct: real,
    positions: map<Symbol, Position>)

  datatype Veto =
    | LowConfidence | DailyLossLimit | DuplicateExposure | MaxOpenPositions
    | MaxLeverage | SizeBelowMinimum | InsufficientEquity | NoMarketData

  datatype Verdict = Vetoed(reasons: seq<Veto>) | Approved(size: real, notional: real, order: Order)

  // ---- the numbers a decision is judged by ----------------------------

  datatype Terms = Terms(price: real, direction: Direction, stop: real, equity: real, gross: real)

  function EquityOf(portfolio: Option<Snapshot>, startingEquity: real): real {
    if portfolio.Some? then portfolio.value.equity else startingEquity
  }

  function GrossOf(portfolio: Option<Snapshot>): real {
    if portfolio.Some? then portfolio.value.grossNotional else 0.0
  }

  function PositionsOf(portfolio: Option<Snapshot>): map<Symbol, Position> {
    if portfolio.Some? then portfolio.value.positions else map[]
  }

  predicate CorrectSide(d: Direction, stop: real, price: real) {
    (d == Long && stop < price) || (d == Short && stop > price)
  }

  predicate UsableStop(l: Limits, stop: real, price: real, d: Direction)
    requires price > 0.0
  {
    CorrectSide(d, stop, price) && Abs(price - stop) / price * 100.0 >= l.minStopDistancePct
  }

  function ResolvedStop(l: Limits, suggested: Option<real>, price: real, d: Direction): real
    requires price > 0.0
  {
    if suggested.Some? && suggested.value > 0.0 && UsableStop(l, suggested.value, price, d) then suggested.value
    else
      var offset := price * l.defaultStopDistancePct / 100.0;
      if d == Long then price - offset else price + offset
  }

  /** The stop sits strictly on the losing side, at a usable distance. */
  lemma StopIsOnLosingSide(l: Limits, suggested: Option<real>, price: real, d: Direction)
    requires l.Valid() && price > 0.0 && d != Flat
    ensures CorrectSide(d, ResolvedStop(l, suggested, price, d), price)
    ensures Abs(price - ResolvedStop(l, suggested, price, d)) > 0.0
  {
    OffsetIsPositive(price, l.defaultStopDistancePct);
  }

  lemma OffsetIsPositive(price: real, pct: real)
    requires price > 0.0 && pct > 0.0
    ensures price * pct / 100.0 > 0.0
  {
    assert price * pct > 0.0;
  }

  function TermsOf(l: Limits, portfolio: Option<Snapshot>, startingEquity: real, d: Decision): Terms
    requires d.referencePrice.Some? && d.referencePrice.value > 0.0
  {
    var price := d.referencePrice.value;
    Terms(price, d.action.Direction(), ResolvedStop(l, d.suggestedStop, price, d.action.Direction()),
          EquityOf(portfolio, startingEquity), GrossOf(portfolio))
  }

  function RiskBudget(l: Limits, t: Terms): real {
    t.equity * l.riskPerTradePct / 100.0
  }

  function Headroom(l: Limits, t: Terms): real {
    t.equity * l.maxPortfolioLeverage - t.gross
  }

  function StopDistance(t: Terms): real {
    Abs(t.price - t.stop)
  }

  // ---- sizing ---------------------------------------------------------

  /** A size at a price, valued. */
  function Worth(size: real, price: real): real {
    size * price
  }

  function Capped(size: real, price: real, cap: real): real
    requires price > 0.0
  {
    if Worth(size, price) > cap then cap / price else size
  }

  /** The three clamps in the order they are applied; leverage only clamps while headroom is left. */
  function ClampedSize(l: Limits, t: Terms): real
    requires t.price > 0.0 && StopDistance(t) > 0.0
  {
    var size := Capped(RiskBudget(l, t) / StopDistance(t), t.price, l.maxPositionNotional);
    if Headroom(l, t) <= 0.0 then size else Capped(size, t.price, Headroom(l, t))
  }

  function FinalSize(l: Limits, t: Terms): real
    requires t.price > 0.0 && StopDistance(t) > 0.0
  {
    RoundDown(ClampedSize(l, t), STEPS)
  }

  /** A size that keeps the position cap, the leverage headroom and the stop-loss budget. */
  predicate WithinLimits(l: Limits, t: Terms, size: real) {
    && Worth(size, t.price) <= l.maxPositionNotional
    && Worth(size, t.price) <= Headroom(l, t)
    && Worth(size, StopDistance(t)) <= RiskBudget(l, t)
  }

  /** Capping yields exactly the sizes that were allowed before and fit under the cap. */
  lemma CappingIntersects(size: real, price: real, cap: real, s: real)
    requires price > 0.0
    ensures s <= Capped(size, price, cap) <==> s <= size && Worth(s, price) <= cap
  {
    WorthBelow(s, price, cap);
    WorthBelow(size, price, cap);
  }

  lemma WorthBelow(s: real, price: real, cap: real)
    requires price > 0.0
    ensures s <= cap / price <==> Worth(s, price) <= cap
  {
    var most := cap / price;
    assert most * price == cap;
    if s <= most {
      ScaledInOrder(s, most, price);
    } else {
      ScaledInOrder(most, s, price);
    }
  }

  lemma ScaledInOrder(a: real, b: real, k: real)
    requires k > 0.0 && a <= b
    ensures a * k <= b * k && (a < b ==> a * k < b * k)
  {
    assert (b - a) * k >= 0.0;
    if a < b {
      assert (b - a) * k > 0.0;
    }
  }

  /** Below the clamped size is the same as within all three limits. */
  lemma ClampIsTheLimit(l: Limits, t: Terms, s: real)
    requires t.price > 0.0 && StopDistance(t) > 0.0 && Headroom(l, t) > 0.0
    ensures s <= ClampedSize(l, t) <==> WithinLimits(l, t, s)
  {
    var raw := RiskBudget(l, t) / StopDistance(t);
    WorthBelow(s, StopDistance(t), RiskBudget(l, t));
    CappingIntersects(raw, t.price, l.maxPositionNotional, s);
    CappingIntersects(Capped(raw, t.price, l.maxPositionNotional), t.price, Headroom(l, t), s);
  }

  lemma ClampedSizeIsPositive(l: Limits, t: Terms)
    requires l.Valid() && t.price > 0.0 && t.equity > 0.0 && StopDistance(t) > 0.0
    ensures ClampedSize(l, t) > 0.0
  {
    OffsetIsPositive(t.equity, l.riskPerTradePct);
    PositiveQuotient(RiskBudget(l, t), StopDistance(t));
    PositiveQuotient(l.maxPositionNotional, t.price);
    if Headroom(l, t) > 0.0 {
      PositiveQuotient(Headroom(l, t), t.price);
    }
  }

  lemma PositiveQuotient(n: real, f: real)
    requires n > 0.0 && f > 0.0
    ensures n / f > 0.0
  {
  }

  /** Main sizing result: while leverage headroom is left, the rounded size is the largest
      multiple of the size quantum that keeps every limit. */
  lemma SizeIsLargestWithinLimits(l: Limits, t: Terms)
    requires l.Valid() && t.price > 0.0 && t.equity > 0.0 && StopDistance(t) > 0.0 && Headroom(l, t) > 0.0
    ensures WithinLimits(l, t, FinalSize(l, t))
    ensures exists k: int :: FinalSize(l, t) == Steps(k, STEPS)
    ensures forall k: int :: WithinLimits(l, t, Steps(k, STEPS)) ==> Steps(k, STEPS) <= FinalSize(l, t)
  {
    ClampedSizeIsPositive(l, t);
    RoundDownIsGreatestBelow(ClampedSize(l, t), STEPS);
    ClampIsTheLimit(l, t, FinalSize(l, t));
    forall k: int | WithinLimits(l, t, Steps(k, STEPS))
      ensures Steps(k, STEPS) <= FinalSize(l, t)
    {
      ClampIsTheLimit(l, t, Steps(k, STEPS));
    }
  }

  // ---- the verdict ----------------------------------------------------

  /** A sized order, valued. */
  datatype Sized = Sized(size: real, notional: real, headroom: real)

  function SizedFor(l: Limits, t: Terms): Sized
    requires t.price > 0.0 && StopDistance(t) > 0.0
  {
    var size := FinalSize(l, t);
    Sized(size, RoundDown(Worth(size, t.price), 100.0), Headroom(l, t))
  }

  /** The rules a decision with a price and positive equity is checked against, in order. */
  const RULES: seq<Veto> := [LowConfidence, DailyLossLimit, DuplicateExposure, MaxOpenPositions, MaxLeverage, SizeBelowMinimum]

  function Rank(r: Veto): (k: nat)
    ensures k < |RULES| ==> RULES[k] == r
  {
    match r
    case LowConfidence => 0
    case DailyLossLimit => 1
    case DuplicateExposure => 2
    case MaxOpenPositions => 3
    case MaxLeverage => 4
    case SizeBelowMinimum => 5
    case _ => |RULES|
  }

  /** The rule a reason stands for is broken. */
  predicate Broken(l: Limits, portfolio: Option<Snapshot>, direction: Direction, d: Decision, z: Sized, r: Veto) {
    var held := PositionsOf(portfolio);
    match r
    case LowConfidence => d.weightedConfidence < l.minConfidence
    case DailyLossLimit => portfolio.Some? && portfolio.value.dayPnlPct <= -l.dailyLossLimitPct
    case DuplicateExposure => d.symbol in held && held[d.symbol].direction != direction
    case MaxOpenPositions => d.symbol !in held && |held| >= l.maxOpenPositions
    case MaxLeverage => z.headroom <= 0.0
    case SizeBelowMinimum => z.size <= 0.0 || z.notional < l.minOrderNotional
    case _ => false
  }

  /** The broken rules among the first k, in order. */
  function BreachesUpTo(l: Limits, portfolio: Option<Snapshot>, direction: Direction, d: Decision, z: Sized, k: nat)
    : seq<Veto>
    requires k <= |RULES|
  {
    if k == 0 then []
    else
      var before := BreachesUpTo(l, portfolio, direction, d, z, k - 1);
      if Broken(l, portfolio, direction, d, z, RULES[k - 1]) then before + [RULES[k - 1]] else before
  }

  function Breaches(l: Limits, portfolio: Option<Snapshot>, direction: Direction, d: Decision, z: Sized): seq<Veto> {
    BreachesUpTo(l, portfolio, direction, d, z, |RULES|)
  }

  predicate InRuleOrder(reasons: seq<Veto>) {
    forall i, j :: 0 <= i < j < |reasons| ==> Rank(reasons[i]) < Rank(reasons[j])
  }

  /** Exactly the broken rules of rank below k, in order. */
  predicate Lists(l: Limits, portfolio: Option<Snapshot>, direction: Direction, d: Decision, z: Sized,
                  reasons: seq<Veto>, k: nat) {
    InRuleOrder(reasons) && forall r :: r in reasons <==> Rank(r) < k && Broken(l, portfolio, direction, d, z, r)
  }

  lemma RankOf(k: nat, r: Veto)
    requires k < |RULES|
    ensures Rank(r) < k + 1 <==> Rank(r) < k || r == RULES[k]
    ensures Rank(RULES[k]) == k
  {
  }

  lemma ListsNext(l: Limits, portfolio: Option<Snapshot>, direction: Direction, d: Decision, z: Sized,
                  reasons: seq<Veto>, k: nat)
    requires k < |RULES| && Lists(l, portfolio, direction, d, z, reasons, k)
    ensures Lists(l, portfolio, direction, d, z,
                  if Broken(l, portfolio, direction, d, z, RULES[k]) then reasons + [RULES[k]] else reasons, k + 1)
  {
    forall r
      ensures Rank(r) < k + 1 <==> Rank(r) < k || r == RULES[k]
    {
      RankOf(k, r);
    }
    OrderExtends(reasons, RULES[k]);
  }

  lemma OrderExtends(reasons: seq<Veto>, reason: Veto)
    requires InRuleOrder(reasons) && forall r :: r in reasons ==> Rank(r) < Rank(reason)
    ensures InRuleOrder(reasons + [reason])
  {
    forall i | 0 <= i < |reasons|
      ensures Rank(reasons[i]) < Rank(reason)
    {
      assert reasons[i] in reasons;
    }
  }

  lemma {:induction false} BreachesAreListed(l: Limits, portfolio: Option<Snapshot>, direction: Direction, d: Decision,
                                             z: Sized, k: nat)
    requires k <= |RULES|
    ensures Lists(l, portfolio, direction, d, z, BreachesUpTo(l, portfolio, direction, d, z, k), k)
  {
    if k > 0 {
      BreachesAreListed(l, portfolio, direction, d, z, k - 1);
      ListsNext(l, portfolio, direction, d, z, BreachesUpTo(l, portfolio, direction, d, z, k - 1), k - 1);
    }
  }

  /** A list in rule order is determined by its members. */
  lemma {:induction false} RuleOrderIsUnique(a: seq<Veto>, b: seq<Veto>)
    requires InRuleOrder(a) && InRuleOrder(b) && forall r :: r in a <==> r in b
    ensures a == b
    decreases |a|
  {
    if a == [] {
      SomeReason(b);
    } else {
      assert a[0] in b && b != [];
      assert b[0] in a;
      assert a[0] == b[0];
      forall r
        ensures r in a[1..] <==> r in b[1..]
      {
        RestOfReasons(a, r);
        RestOfReasons(b, r);
      }
      RuleOrderIsUnique(a[1..], b[1..]);
    }
  }

  lemma ListedIsBreaches(l: Limits, portfolio: Option<Snapshot>, direction: Direction, d: Decision, z: Sized,
                         reasons: seq<Veto>)
    requires Lists(l, portfolio, direction, d, z, reasons, |RULES|)
    ensures reasons == Breaches(l, portfolio, direction, d, z)
  {
    BreachesAreListed(l, portfolio, direction, d, z, |RULES|);
    RuleOrderIsUnique(reasons, Breaches(l, portfolio, direction, d, z));
  }

  lemma SomeReason(a: seq<Veto>)
    ensures a == [] || exists r :: r in a
  {
    if a != [] {
      assert a[0] in a;
    }
  }

  lemma RestOfReasons(a: seq<Veto>, r: Veto)
    requires a != [] && InRuleOrder(a)
    ensures r in a[1..] <==> r in a && r != a[0]
  {
    assert a == [a[0]] + a[1..];
  }

  function OrderFor(l: Limits, t: Terms, d: Decision, size: real, id: nat): Order {
    Order(id, d.symbol, if t.direction == Long then Buy else Sell, size, false,
          Some(t.stop), d.suggestedTakeProfit, l.trailingStopPct, None)
  }

  function Evaluated(l: Limits, portfolio: Option<Snapshot>, startingEquity: real, d: Decision, id: nat): Verdict {
    if d.action == Hold then Vetoed([LowConfidence])
    else if EquityOf(portfolio, startingEquity) <= 0.0 then Vetoed([InsufficientEquity])
    else if d.referencePrice == None || d.referencePrice.value <= 0.0 then Vetoed([NoMarketData])
    else
      var t := TermsOf(l, portfolio, startingEquity, d);
      if StopDistance(t) <= 0.0 then Vetoed([NoMarketData])
      else
        var z := SizedFor(l, t);
        var reasons := Breaches(l, portfolio, t.direction, d, z);
        if reasons != [] then Vetoed(reasons)
        else Approved(z.size, z.notional, OrderFor(l, t, d, z.size, id))
  }

  /** An approved opening decision becomes an order that keeps every limit at the decision's price, is the
      largest that does, carries a stop on the losing side, never opposes or exceeds the held positions. */
  lemma ApprovalIsSafe(l: Limits, portfolio: Option<Snapshot>, startingEquity: real, d: Decision, id: nat)
    requires l.Valid() && d.action.Direction() != Flat
    requires Evaluated(l, portfolio, startingEquity, d, id).Approved?
    ensures var v := Evaluated(l, portfolio, startingEquity, d, id);
      && d.referencePrice.Some? && d.referencePrice.value > 0.0
      && var t := TermsOf(l, portfolio, startingEquity, d);
      && var held := PositionsOf(portfolio);
      && v.size > 0.0 && v.order.size == v.size && v.order.symbol == d.symbol && !v.order.reduceOnly
      && WithinLimits(l, t, v.size)
      && (forall k: int :: WithinLimits(l, t, Steps(k, STEPS)) ==> Steps(k, STEPS) <= v.size)
      && Worth(v.size, t.price) >= v.notional >= l.minOrderNotional
      && v.order.stopPrice.Some? && CorrectSide(t.direction, v.order.stopPrice.value, t.price)
      && v.order.side == (if d.action == OpenLong then Buy else Sell)
      && (if d.symbol in held then held[d.symbol].direction == d.action.Direction()
          else |held| < l.maxOpenPositions)
  {
    var t := TermsOf(l, portfolio, startingEquity, d);
    NoBreachMeansNoCondition(l, portfolio, t.direction, d, SizedFor(l, t));
    StopIsOnLosingSide(l, d.suggestedStop, t.price, t.direction);
    SizeIsLargestWithinLimits(l, t);
    var size := FinalSize(l, t);
    WorthIsPositive(size, t.price);
    RoundDownIsGreatestBelow(Worth(size, t.price), 100.0);
  }

  // ---- the approved order in the settings' own units ------------------

  /** A suggested stop that is kept: positive, on the losing side, at least the minimum percentage away. */
  predicate KeepsSuggestion(l: Limits, suggested: Option<real>, price: real, long: bool) {
    && suggested.Some? && suggested.value > 0.0
    && (if long then suggested.value < price && (price - suggested.value) * 100.0 >= price * l.minStopDistancePct
        else suggested.value > price && (suggested.value - price) * 100.0 >= price * l.minStopDistancePct)
  }

  /** The suggestion when it is usable, else the default percentage away; on the losing side either way. */
  predicate StopTold(l: Limits, suggested: Option<real>, price: real, long: bool, stop: real) {
    && (if long then stop < price else stop > price)
    && if KeepsSuggestion(l, suggested, price, long) then suggested == Some(stop)
       else (if long then price - stop else stop - price) * 100.0 == price * l.defaultStopDistancePct
  }

  lemma DistanceInPercent(gap: real, price: real, pct: real)
    requires price > 0.0
    ensures gap / price * 100.0 >= pct <==> gap * 100.0 >= price * pct
  {
    var share := gap / price;
    assert share * price == gap;
    assert (share * 100.0 - pct) * price == gap * 100.0 - price * pct;
    if share * 100.0 >= pct {
      assert (share * 100.0 - pct) * price >= 0.0;
    } else {
      assert (share * 100.0 - pct) * price < 0.0;
    }
  }

  lemma StopInPercent(l: Limits, suggested: Option<real>, price: real, d: Direction)
    requires l.Valid() && price > 0.0 && d != Flat
    ensures StopTold(l, suggested, price, d == Long, ResolvedStop(l, suggested, price, d))
  {
    StopIsOnLosingSide(l, suggested, price, d);
    if suggested.Some? {
      DistanceInPercent(Abs(price - suggested.value), price, l.minStopDistancePct);
    }
  }

  /** What an approval is made of. */
  lemma ApprovalOf(l: Limits, portfolio: Option<Snapshot>, startingEquity: real, d: Decision, id: nat)
    requires l.Valid() && (d.action == OpenLong || d.action == OpenShort)
    requires Evaluated(l, portfolio, startingEquity, d, id).Approved?
    ensures d.referencePrice.Some? && d.referencePrice.value > 0.0
    ensures var v := Evaluated(l, portfolio, startingEquity, d, id); var t := TermsOf(l, portfolio, startingEquity, d);
      && v.order == OrderFor(l, t, d, v.size, id)
      && v.notional == RoundDown(Worth(v.size, t.price), 100.0) && v.notional >= l.minOrderNotional
      && v.size > 0.0
  {
    NoBreachMeansNoCondition(l, portfolio, d.action.Direction(), d, SizedFor(l, TermsOf(l, portfolio, startingEquity, d)));
  }

  /** The stop of an approved order: the suggestion when it is usable, else the default percentage away
      on the losing side. */
  lemma ApprovedStop(l: Limits, portfolio: Option<Snapshot>, startingEquity: real, d: Decision, id: nat)
    requires l.Valid() && (d.action == OpenLong || d.action == OpenShort)
    requires Evaluated(l, portfolio, startingEquity, d, id).Approved?
    ensures var order := Evaluated(l, portfolio, startingEquity, d, id).order;
      && d.referencePrice.Some? && order.stopPrice.Some?
      && var price, stop := d.referencePrice.value, order.stopPrice.value;
      && StopTold(l, d.suggestedStop, price, d.action == OpenLong, stop)
  {
    ApprovalOf(l, portfolio, startingEquity, d, id);
    StopInPercent(l, d.suggestedStop, d.referencePrice.value, d.action.Direction());
  }

  /** A size that keeps the three limits of a decision: at most the risk percentage of equity lost at the stop, at
      most the notional cap, and at most the leverage multiple of equity together with what is already held. */
  predicate KeepsLimits(l: Limits, equity: real, gross: real, price: real, stop: real, size: real) {
    && (if stop < price then price - stop else stop - price) * size * 100.0 <= equity * l.riskPerTradePct
    && size * price <= l.maxPositionNotional
    && size * price + gross <= equity * l.maxPortfolioLeverage
  }

  predicate Whole(x: real) {
    x == x.Floor as real
  }

  lemma LimitsInPercent(l: Limits, t: Terms, size: real)
    ensures WithinLimits(l, t, size) <==> KeepsLimits(l, t.equity, t.gross, t.price, t.stop, size)
  {
    var gap := if t.stop < t.price then t.price - t.stop else t.stop - t.price;
    assert StopDistance(t) == gap;
    RiskInPercent(size, gap, t.equity * l.riskPerTradePct);
  }

  lemma RiskInPercent(size: real, gap: real, scaled: real)
    ensures Worth(size, gap) <= scaled / 100.0 <==> gap * size * 100.0 <= scaled
  {
    assert size * gap == gap * size;
  }

  lemma WholeSteps(s: real, steps: real)
    requires steps > 0.0
    ensures Whole(s * steps) <==> exists k: int :: s == Steps(k, steps)
  {
    if Whole(s * steps) {
      assert s == Steps((s * steps).Floor, steps);
    }
    if k: int :| s == Steps(k, steps) {
      assert s * steps == k as real;
    }
  }

  /** The size of an approved order: a whole number of hundred-millionths keeping every limit, and the largest
      that does. */
  lemma ApprovedSize(l: Limits, portfolio: Option<Snapshot>, startingEquity: real, d: Decision, id: nat)
    requires l.Valid() && (d.action == OpenLong || d.action == OpenShort)
    requires Evaluated(l, portfolio, startingEquity, d, id).Approved?
    ensures var order := Evaluated(l, portfolio, startingEquity, d, id).order;
      && d.referencePrice.Some? && order.stopPrice.Some?
      && var equity := (if portfolio.Some? then portfolio.value.equity else startingEquity);
      && var gross := (if portfolio.Some? then portfolio.value.grossNotional else 0.0);
      && var price, stop := d.referencePrice.value, order.stopPrice.value;
      && Whole(order.size * 100000000.0) && KeepsLimits(l, equity, gross, price, stop, order.size)
      && forall s: real :: Whole(s * 100000000.0) && KeepsLimits(l, equity, gross, price, stop, s) ==> s <= order.size
  {
    ApprovalOf(l, portfolio, startingEquity, d, id);
    ApprovalIsSafe(l, portfolio, startingEquity, d, id);
    LargestInPercent(l, TermsOf(l, portfolio, startingEquity, d));
  }

  lemma LargestInPercent(l: Limits, t: Terms)
    requires l.Valid() && t.price > 0.0 && t.equity > 0.0 && StopDistance(t) > 0.0 && Headroom(l, t) > 0.0
    ensures var size := FinalSize(l, t);
      && Whole(size * 100000000.0) && KeepsLimits(l, t.equity, t.gross, t.price, t.stop, size)
      && forall s: real :: Whole(s * 100000000.0) && KeepsLimits(l, t.equity, t.gross, t.price, t.stop, s) ==> s <= size
  {
    var size := FinalSize(l, t);
    SizeIsLargestWithinLimits(l, t);
    LimitsInPercent(l, t, size);
    WholeSteps(size, STEPS);
    forall s: real | Whole(s * 100000000.0) && KeepsLimits(l, t.equity, t.gross, t.price, t.stop, s)
      ensures s <= size
    {
      WholeSteps(s, STEPS);
      LimitsInPercent(l, t, s);
    }
  }

  /** What else an approved order carries. */
  lemma ApprovedOrder(l: Limits, portfolio: Option<Snapshot>, startingEquity: real, d: Decision, id: nat)
    requires l.Valid() && (d.action == OpenLong || d.action == OpenShort)
    requires Evaluated(l, portfolio, startingEquity, d, id).Approved?
    ensures var v := Evaluated(l, portfolio, startingEquity, d, id);
      && v.order.id == id && v.order.symbol == d.symbol && !v.order.reduceOnly && v.order.size == v.size
      && (v.order.side == Buy <==> d.action == OpenLong)
      && v.order.takeProfitPrice == d.suggestedTakeProfit && v.order.trailingStopPct == l.trailingStopPct
  {
    ApprovalOf(l, portfolio, startingEquity, d, id);
  }

  /** The worth of a size at a price, cut to whole cents. */
  predicate InCents(size: real, price: real, notional: real) {
    Whole(notional * 100.0) && notional <= size * price < notional + 0.01
  }

  /** The notional of an approval: the order's worth cut to whole cents, at least the minimum. */
  lemma ApprovedNotional(l: Limits, portfolio: Option<Snapshot>, startingEquity: real, d: Decision, id: nat)
    requires l.Valid() && (d.action == OpenLong || d.action == OpenShort)
    requires Evaluated(l, portfolio, startingEquity, d, id).Approved?
    ensures var v := Evaluated(l, portfolio, startingEquity, d, id);
      && d.referencePrice.Some? && v.notional >= l.minOrderNotional
      && InCents(v.size, d.referencePrice.value, v.notional)
  {
    var v := Evaluated(l, portfolio, startingEquity, d, id);
    ApprovalOf(l, portfolio, startingEquity, d, id);
    CutToCents(v.size, d.referencePrice.value, v.notional);
  }

  lemma CutToCents(size: real, price: real, notional: real)
    requires size > 0.0 && price > 0.0 && notional == RoundDown(Worth(size, price), 100.0)
    ensures InCents(size, price, notional)
  {
    var x := Worth(size, price);
    WorthIsPositive(size, price);
    assert RoundDown(x, 100.0) * 100.0 == (x * 100.0).Floor as real;
  }

  lemma WorthIsPositive(size: real, price: real)
    requires size > 0.0 && price > 0.0
    ensures Worth(size, price) > 0.0
  {
  }

  /** No reason is listed exactly when no limit is breached. */
  lemma NoBreachMeansNoCondition(l: Limits, portfolio: Option<Snapshot>, direction: Direction, d: Decision, z: Sized)
    ensures var held := PositionsOf(portfolio);
      Breaches(l, portfolio, direction, d, z) == []
      <==> && d.weightedConfidence >= l.minConfidence
           && (portfolio.Some? ==> portfolio.value.dayPnlPct > -l.dailyLossLimitPct)
           && (d.symbol in held ==> held[d.symbol].direction == direction)
           && (d.symbol !in held ==> |held| < l.maxOpenPositions)
           && z.headroom > 0.0
           && z.size > 0.0 && z.notional >= l.minOrderNotional
  {
    var reasons := Breaches(l, portfolio, direction, d, z);
    BreachesAreListed(l, portfolio, direction, d, z, |RULES|);
    SomeReason(reasons);
    assert LowConfidence in reasons <==> d.weightedConfidence < l.minConfidence;
    assert DailyLossLimit in reasons <==> Broken(l, portfolio, direction, d, z, DailyLossLimit);
    assert DuplicateExposure in reasons <==> Broken(l, portfolio, direction, d, z, DuplicateExposure);
    assert MaxOpenPositions in reasons <==> Broken(l, portfolio, direction, d, z, MaxOpenPositions);
    assert MaxLeverage in reasons <==> z.headroom <= 0.0;
    assert SizeBelowMinimum in reasons <==> Broken(l, portfolio, direction, d, z, SizeBelowMinimum);
  }

  /** Two snapshots that differ only in the sizes, prices and marks of what is held. */
  predicate SameButSizes(p: Snapshot, q: Snapshot) {
    && p.equity == q.equity && p.grossNotional == q.grossNotional && p.dayPnlPct == q.dayPnlPct
    && p.positions.Keys == q.positions.Keys
    && forall s :: s in p.positions ==> p.positions[s].direction == q.positions[s].direction
  }

  lemma {:induction false} BreachesIgnoreSizes(l: Limits, p: Snapshot, q: Snapshot, direction: Direction, d: Decision,
                                               z: Sized, k: nat)
    requires SameButSizes(p, q) && k <= |RULES|
    ensures BreachesUpTo(l, Some(p), direction, d, z, k) == BreachesUpTo(l, Some(q), direction, d, z, k)
  {
    if k > 0 {
      assert |p.positions| == |p.positions.Keys| && |q.positions| == |q.positions.Keys|;
      BreachesIgnoreSizes(l, p, q, direction, d, z, k - 1);
    }
  }

  /** The verdict looks at no held size: the notional cap, documented as per position, is a cap per order. */
  lemma VerdictIgnoresHeldSizes(l: Limits, p: Snapshot, q: Snapshot, startingEquity: real, d: Decision, id: nat)
    requires SameButSizes(p, q)
    ensures Evaluated(l, Some(p), startingEquity, d, id) == Evaluated(l, Some(q), startingEquity, d, id)
  {
    if d.referencePrice.Some? && d.referencePrice.value > 0.0 {
      var t := TermsOf(l, Some(p), startingEquity, d);
      if StopDistance(t) > 0.0 {
        BreachesIgnoreSizes(l, p, q, t.direction, d, SizedFor(l, t), |RULES|);
      }
    }
  }

  lemma SizeAtLeast(l: Limits, t: Terms, k: int, size: real)
    requires l.Valid() && t.price > 0.0 && t.equity > 0.0 && StopDistance(t) > 0.0 && Headroom(l, t) > 0.0
    requires size == Steps(k, STEPS) && WithinLimits(l, t, size)
    ensures FinalSize(l, t) >= size
  {
    SizeIsLargestWithinLimits(l, t);
  }

  lemma NotionalAtLeast(worth: real, cents: int, notional: real)
    requires worth >= notional == Steps(cents, 100.0) && notional >= 0.0
    ensures RoundDown(worth, 100.0) >= notional
  {
    RoundDownIsGreatestBelow(worth, 100.0);
  }

  lemma WorthAtLeast(size: real, least: real, price: real, worth: real)
    requires size >= least && price > 0.0 && worth == least * price
    ensures Worth(size, price) >= worth
  {
    ScaledInOrder(least, size, price);
  }

  /** A close decision for a symbol that is not held is judged exactly like a short entry with the
      fallback stop: its direction is Flat, which every "long or else" test treats as short. */
  lemma CloseOfNothingIsShortEntry(l: Limits, portfolio: Option<Snapshot>, startingEquity: real, d: Decision, id: nat)
    requires d.symbol !in PositionsOf(portfolio)
    ensures Evaluated(l, portfolio, startingEquity, d.(action := Close), id)
            == Evaluated(l, portfolio, startingEquity, d.(action := OpenShort, suggestedStop := None), id)
  {
    var close, short := d.(action := Close), d.(action := OpenShort, suggestedStop := None);
    if d.referencePrice.Some? && d.referencePrice.value > 0.0 {
      var t := TermsOf(l, portfolio, startingEquity, short);
      FlatStopIsFallback(l, d.suggestedStop, t.price);
      assert TermsOf(l, portfolio, startingEquity, close) == t.(direction := Flat);
      if StopDistance(t) > 0.0 {
        FlatSizesAlike(l, t);
        UnheldDirectionIsIgnored(l, portfolio, close, short, SizedFor(l, t), |RULES|);
      }
    }
  }

  /** A close decision for a held symbol is always vetoed, as exposure that would be duplicated whenever it gets
      as far as the rules: no close is ever approved against what it should close. */
  lemma CloseOfHeldIsVetoed(l: Limits, portfolio: Option<Snapshot>, startingEquity: real, d: Decision, id: nat)
    requires d.action == Close && d.symbol in PositionsOf(portfolio)
    requires PositionsOf(portfolio)[d.symbol].direction != Flat
    ensures var v := Evaluated(l, portfolio, startingEquity, d, id);
      && v.Vetoed?
      && (v.reasons == [InsufficientEquity] || v.reasons == [NoMarketData] || DuplicateExposure in v.reasons)
  {
    if d.referencePrice.Some? && d.referencePrice.value > 0.0 {
      var t := TermsOf(l, portfolio, startingEquity, d);
      if StopDistance(t) > 0.0 {
        BreachesAreListed(l, portfolio, t.direction, d, SizedFor(l, t), |RULES|);
        assert DuplicateExposure in Breaches(l, portfolio, t.direction, d, SizedFor(l, t));
      }
    }
  }

  lemma {:induction false} UnheldDirectionIsIgnored(l: Limits, portfolio: Option<Snapshot>, close: Decision,
                                                    short: Decision, z: Sized, k: nat)
    requires close.symbol == short.symbol && short.symbol !in PositionsOf(portfolio) && k <= |RULES|
    requires close.weightedConfidence == short.weightedConfidence
    ensures BreachesUpTo(l, portfolio, Flat, close, z, k) == BreachesUpTo(l, portfolio, Short, short, z, k)
  {
    if k > 0 {
      UnheldDirectionIsIgnored(l, portfolio, close, short, z, k - 1);
    }
  }

  lemma FlatStopIsFallback(l: Limits, suggested: Option<real>, price: real)
    requires price > 0.0
    ensures ResolvedStop(l, suggested, price, Flat) == ResolvedStop(l, None, price, Short)
  {
  }

  lemma FlatSizesAlike(l: Limits, t: Terms)
    requires t.price > 0.0 && StopDistance(t) > 0.0
    ensures SizedFor(l, t.(direction := Flat)) == SizedFor(l, t)
  {
    var f := t.(direction := Flat);
    assert StopDistance(f) == StopDistance(t) && RiskBudget(l, f) == RiskBudget(l, t) && Headroom(l, f) == Headroom(l, t);
  }

  // ---- the mutable agent ----------------------------------------------

  class RiskManagerAgent {
    var portfolio: Option<Snapshot>
    var approvals: nat
    var vetoes: nat
    const limits: Limits
    const startingEquity: real

    constructor (limits: Limits, startingEquity: real)
      requires limits.Valid()
      ensures portfolio == None && approvals == vetoes == 0
      ensures this.limits == limits && this.startingEquity == startingEquity
    {
      portfolio, approvals, vetoes := None, 0, 0;
      this.limits, this.startingEquity := limits, startingEquity;
    }

    method SeeSnapshot(snapshot: Snapshot)
      modifies this`portfolio
      ensures portfolio == Some(snapshot)
    {
      portfolio := Some(snapshot);
    }

    method Gate(d: Decision, id: nat) returns (verdict: Verdict)
      modifies this`approvals, this`vetoes
      ensures verdict == Evaluated(limits, portfolio, startingEquity, d, id)
      ensures approvals == old(approvals) + (if verdict.Approved? then 1 else 0)
      ensures vetoes == old(vetoes) + (if verdict.Vetoed? then 1 else 0)
    {
      verdict := Evaluate(d, id);
      if verdict.Approved? {
        approvals := approvals + 1;
      } else {
        vetoes := vetoes + 1;
      }
    }

    method SizeFor(t: Terms) returns (size: real)
      requires t.price > 0.0 && StopDistance(t) > 0.0
      ensures size == FinalSize(limits, t)
    {
      size := RiskBudget(limits, t) / StopDistance(t);
      if Worth(size, t.price) > limits.maxPositionNotional {
        size := limits.maxPositionNotional / t.price;
      }
      var headroom := Headroom(limits, t);
      if headroom > 0.0 && Worth(size, t.price) > headroom {
        size := headroom / t.price;
      }
      size := RoundDown(size, STEPS);
    }

    method Evaluate(d: Decision, id: nat) returns (verdict: Verdict)
      ensures verdict == Evaluated(limits, portfolio, startingEquity, d, id)
    {
      if d.action == Hold {
        return Vetoed([LowConfidence]);
      }
      var equity := EquityOf(portfolio, startingEquity);
      if equity <= 0.0 {
        return Vetoed([InsufficientEquity]);
      }
      if d.referencePrice == None || d.referencePrice.value <= 0.0 {
        return Vetoed([NoMarketData]);
      }
      var t := TermsOf(limits, portfolio, startingEquity, d);
      if StopDistance(t) <= 0.0 {
        return Vetoed([NoMarketData]);
      }
      var size := SizeFor(t);
      var z := Sized(size, RoundDown(Worth(size, t.price), 100.0), Headroom(limits, t));
      var reasons := CollectBreaches(t.direction, d, z);
      ListedIsBreaches(limits, portfolio, t.direction, d, z, reasons);
      if reasons != [] {
        return Vetoed(reasons);
      }
      return Approved(z.size, z.notional, OrderFor(limits, t, d, z.size, id));
    }

    /** Exactly the broken rules, in the order they are checked. */
    method CollectBreaches(direction: Direction, d: Decision, z: Sized) returns (reasons: seq<Veto>)
      ensures InRuleOrder(reasons)
      ensures forall r :: r in reasons <==> Rank(r) < |RULES| && Broken(limits, portfolio, direction, d, z, r)
    {
      var held := PositionsOf(portfolio);
      reasons := [];
      reasons := Check(direction, d, z, reasons, d.weightedConfidence < limits.minConfidence, LowConfidence);
      reasons := Check(direction, d, z, reasons, portfolio.Some? && portfolio.value.dayPnlPct <= -limits.dailyLossLimitPct, DailyLossLimit);
      reasons := Check(direction, d, z, reasons, d.symbol in held && held[d.symbol].direction != direction, DuplicateExposure);
      reasons := Check(direction, d, z, reasons, d.symbol !in held && |held| >= limits.maxOpenPositions, MaxOpenPositions);
      reasons := Check(direction, d, z, reasons, z.headroom <= 0.0, MaxLeverage);
      reasons := Check(direction, d, z, reasons, z.size <= 0.0 || z.notional < limits.minOrderNotional, SizeBelowMinimum);
    }

    /** One rule: its reason is appended when it is broken. */
    method Check(direction: Direction, d: Decision, z: Sized, reasons: seq<Veto>, broken: bool, reason: Veto)
      returns (more: seq<Veto>)
      requires Rank(reason) < |RULES| && Lists(limits, portfolio, direction, d, z, reasons, Rank(reason))
      requires broken <==> Broken(limits, portfolio, direction, d, z, reason)
      ensures Lists(limits, portfolio, direction, d, z, more, Rank(reason) + 1)
    {
      ListsNext(limits, portfolio, direction, d, z, reasons, Rank(reason));
      more := reasons;
      if broken {
        more := more + [reason];
      }
    }
  }
}
