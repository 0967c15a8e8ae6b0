/** The portfolio manager's accounting core: average-cost books per symbol. */
module Tracker {
  import opened Schemas
  import opened Sums

  /** The event published when a position goes flat. */
  datatype PositionClosed = PositionClosed(
    symbol: Symbol,
    direction: Direction,
    size: real,
    entryPrice: real,
    exitPrice: real,
    realizedPnl: real,
    feesPaid: real,
    exitReason: ExitReason)
  {
    function NetPnl(): real {
      realizedPnl - feesPaid
    }
  }

  /** The tracker's whole state as a value. */
  datatype Books = Books(
    startingEquity: real,
    cash: real,
    realizedPnl: real,
    feesPaid: real,
    tradeCount: nat,
    winCount: nat,
    lossCount: nat,
    positions: map<Symbol, Position>,
    marks: map<Symbol, real>)

  function FlatBooks(startingEquity: real): Books {
    Books(startingEquity, startingEquity, 0.0, 0.0, 0, 0, 0, map[], map[])
  }

  // ---- the fill rules -------------------------------------------------

  function Opened(fill: Fill, order: Option<Order>): Position {
    Position(
      fill.Direction(), fill.size, fill.price, fill.price, 0.0, fill.fee,
      if order.Some? then order.value.stopPrice else None,
      if order.Some? then order.value.takeProfitPrice else None,
      if order.Some? then order.value.trailingStopPct else None)
  }

  function Added(p: Position, fill: Fill): Position
    requires p.size + fill.size != 0.0
  {
    var total := p.size + fill.size;
    p.(size := total,
       entryPrice := (p.entryPrice * p.size + fill.price * fill.size) / total,
       markPrice := fill.price,
       feesPaid := p.feesPaid + fill.fee)
  }

  function RealizedBy(p: Position, fill: Fill): real {
    (fill.price - p.entryPrice) * Min(p.size, fill.size) * Sign(p.direction)
  }

  function Reduced(p: Position, fill: Fill): Position {
    p.(size := p.size - Min(p.size, fill.size),
       markPrice := fill.price,
       realizedPnl := p.realizedPnl + RealizedBy(p, fill),
       feesPaid := p.feesPaid + fill.fee)
  }

  function ClosureReason(order: Option<Order>): ExitReason {
    if order.Some? && order.value.exitReason.Some? then order.value.exitReason.value
    else if order.Some? && !order.value.reduceOnly then SignalReversal
    else Unknown
  }

  function Closure(p: Position, fill: Fill, order: Option<Order>): PositionClosed {
    PositionClosed(fill.symbol, p.direction, Min(p.size, fill.size), p.entryPrice, fill.price,
                   RealizedBy(p, fill), p.feesPaid + fill.fee, ClosureReason(order))
  }

  /** What a fill trading against an open position leaves: the reduced position,
      nothing, or the remainder opened in the opposite direction. */
  function AfterReduction(p: Position, fill: Fill): Option<Position> {
    if p.size > Min(p.size, fill.size) then Some(Reduced(p, fill))
    else if fill.size > p.size then
      Some(Opened(fill.(size := fill.size - p.size), None))
    else None
  }

  /** The whole effect of one fill on the books, with the closure it emits. */
  function Applied(b: Books, fill: Fill, order: Option<Order>): (Books, Option<PositionClosed>)
    requires fill.Valid() && Sane(b)
  {
    var charged := b.(tradeCount := b.tradeCount + 1,
                      cash := b.cash - fill.fee,
                      feesPaid := b.feesPaid + fill.fee,
                      marks := b.marks[fill.symbol := fill.price]);
    if fill.symbol !in b.positions then
      (charged.(positions := b.positions[fill.symbol := Opened(fill, order)]), None)
    else
      var p := b.positions[fill.symbol];
      if p.direction == fill.Direction() then
        (charged.(positions := b.positions[fill.symbol := Added(p, fill)]), None)
      else
        var pnl := RealizedBy(p, fill);
        var after := AfterReduction(p, fill);
        (charged.(realizedPnl := b.realizedPnl + pnl,
                  cash := b.cash - fill.fee + pnl,
                  winCount := if pnl > 0.0 then b.winCount + 1 else b.winCount,
                  lossCount := if pnl < 0.0 then b.lossCount + 1 else b.lossCount,
                  positions := if after.Some? then b.positions[fill.symbol := after.value]
                               else b.positions - {fill.symbol}),
         if p.size > fill.size then None else Some(Closure(p, fill, order)))
  }

  /** Re-mark a symbol; non-positive prices are ignored. */
  function Marked(b: Books, symbol: Symbol, price: real): Books {
    if price <= 0.0 then b
    else
      var b' := b.(marks := b.marks[symbol := price]);
      if symbol in b.positions
      then b'.(positions := b.positions[symbol := b.positions[symbol].(markPrice := price)])
      else b'
  }

  predicate IsReduction(b: Books, fill: Fill) {
    fill.symbol in b.positions && b.positions[fill.symbol].direction != fill.Direction()
  }

  /** The fill is larger than the position it trades against. */
  predicate IsFlip(b: Books, fill: Fill) {
    IsReduction(b, fill) && fill.size > b.positions[fill.symbol].size
  }

  predicate IsPartialClose(b: Books, fill: Fill) {
    IsReduction(b, fill) && fill.size < b.positions[fill.symbol].size
  }

  predicate Sane(b: Books) {
    && (forall s :: s in b.positions ==> b.positions[s].Valid())
    && (forall s :: s in b.positions ==> s in b.marks && b.positions[s].markPrice == b.marks[s])
  }

  lemma AppliedKeepsSane(b: Books, fill: Fill, order: Option<Order>)
    requires Sane(b) && fill.Valid()
    ensures Sane(Applied(b, fill, order).0)
  {
    if fill.symbol in b.positions {
      var p := b.positions[fill.symbol];
      if p.direction == fill.Direction() {
        AverageIsPositive(p.entryPrice, p.size, fill.price, fill.size);
      }
    }
  }

  lemma AverageIsPositive(a: real, m: real, b: real, n: real)
    requires a > 0.0 && m > 0.0 && b > 0.0 && n > 0.0
    ensures (a * m + b * n) / (m + n) > 0.0
  {
    assert a * m > 0.0 && b * n > 0.0;
    var total := a * m + b * n;
    assert total / (m + n) * (m + n) == total;
  }

  lemma MarkKeepsHoldings(b: Books, symbol: Symbol, mid: real)
    requires Sane(b)
    ensures var b' := Marked(b, symbol, mid);
      && Sane(b') && b'.positions.Keys == b.positions.Keys && |b'.positions| == |b.positions|
      && forall s :: s in b.positions ==>
           && b'.positions[s].direction == b.positions[s].direction
           && b'.positions[s].size == b.positions[s].size
  {
  }

  // ---- a fill in its own terms ----------------------------------------

  /** A position just opened at a fill, long on a buy and short on a sell. */
  predicate FreshlyOpened(p: Position, fill: Fill, size: real) {
    && p.direction == (if fill.side == Buy then Long else Short)
    && p.size == size && p.entryPrice == p.markPrice == fill.price
    && p.feesPaid == fill.fee && p.realizedPnl == 0.0
  }

  predicate SameLevels(p: Position, q: Position) {
    p.stopPrice == q.stopPrice && p.takeProfitPrice == q.takeProfitPrice && p.trailingStopPct == q.trailingStopPct
  }

  predicate Unprotected(p: Position) {
    p.stopPrice == None && p.takeProfitPrice == None && p.trailingStopPct == None
  }

  predicate ProtectedBy(p: Position, order: Order) {
    && p.stopPrice == order.stopPrice && p.takeProfitPrice == order.takeProfitPrice
    && p.trailingStopPct == order.trailingStopPct
  }

  /** A fill of a symbol that is not held opens a position with the levels of its order, if that is known. */
  lemma OpeningIsTold(b: Books, fill: Fill, order: Option<Order>)
    requires Sane(b) && fill.Valid() && fill.symbol !in b.positions
    ensures var (b', closed) := Applied(b, fill, order);
      && closed == None && b'.positions.Keys == b.positions.Keys + {fill.symbol}
      && FreshlyOpened(b'.positions[fill.symbol], fill, fill.size)
      && (if order.Some? then ProtectedBy(b'.positions[fill.symbol], order.value)
          else Unprotected(b'.positions[fill.symbol]))
      && b'.cash == b.cash - fill.fee && b'.realizedPnl == b.realizedPnl
  {
  }

  lemma AverageTimesTotal(a: real, m: real, b: real, n: real)
    requires m + n != 0.0
    ensures (a * m + b * n) / (m + n) * (m + n) == a * m + b * n
  {
  }

  /** A fill in a position's direction adds to it at the average cost and leaves its levels alone. */
  lemma AddingIsTold(b: Books, fill: Fill, order: Option<Order>)
    requires Sane(b) && fill.Valid() && fill.symbol in b.positions
    requires b.positions[fill.symbol].direction == if fill.side == Buy then Long else Short
    ensures var (b', closed) := Applied(b, fill, order);
      && closed == None && b'.positions.Keys == b.positions.Keys
      && var p, p' := b.positions[fill.symbol], b'.positions[fill.symbol];
      && p'.direction == p.direction && SameLevels(p, p') && p'.markPrice == fill.price
      && p'.size == p.size + fill.size
      && p'.entryPrice * p'.size == p.entryPrice * p.size + fill.price * fill.size
      && p'.feesPaid == p.feesPaid + fill.fee && p'.realizedPnl == p.realizedPnl
      && b'.cash == b.cash - fill.fee && b'.realizedPnl == b.realizedPnl
  {
    var p := b.positions[fill.symbol];
    AverageTimesTotal(p.entryPrice, p.size, fill.price, fill.size);
  }

  /** What closing part of a position at a price earns. */
  predicate Earns(p: Position, price: real, size: real, pnl: real) {
    pnl == (if p.direction == Long then price - p.entryPrice else p.entryPrice - price) * size
  }

  lemma RealizedIsEarned(p: Position, fill: Fill)
    requires p.direction != Flat
    ensures Earns(p, fill.price, if fill.size < p.size then fill.size else p.size, RealizedBy(p, fill))
  {
    var size := if fill.size < p.size then fill.size else p.size;
    assert Min(p.size, fill.size) == size;
    SignedEarning(fill.price - p.entryPrice, size, p.direction);
  }

  lemma SignedEarning(gap: real, size: real, d: Direction)
    requires d != Flat
    ensures gap * size * Sign(d) == (if d == Long then gap else -gap) * size
  {
  }

  /** Why a position went flat: the order's own reason; else a reversal, if an opening order is known; else unknown. */
  predicate ClosedFor(order: Option<Order>, reason: ExitReason) {
    match order
    case None => reason == Unknown
    case Some(o) =>
      match o.exitReason
      case Some(given) => reason == given
      case None => reason == if o.reduceOnly then Unknown else SignalReversal
  }

  /** A fill against a position earns on the part it closes, leaves the rest at its entry and levels, nothing, or the
      excess opened without levels; a closure is emitted exactly when the position is used up. */
  lemma ClosingIsTold(b: Books, fill: Fill, order: Option<Order>)
    requires Sane(b) && fill.Valid() && fill.symbol in b.positions
    requires b.positions[fill.symbol].direction != if fill.side == Buy then Long else Short
    ensures var (b', closed) := Applied(b, fill, order); var p := b.positions[fill.symbol];
      && Earns(p, fill.price, if fill.size < p.size then fill.size else p.size, b'.realizedPnl - b.realizedPnl)
      && b'.cash == b.cash - fill.fee + (b'.realizedPnl - b.realizedPnl)
      && (fill.symbol in b'.positions <==> fill.size != p.size)
      && (fill.size < p.size ==>
            && var p' := b'.positions[fill.symbol];
            && p'.direction == p.direction && p'.entryPrice == p.entryPrice && SameLevels(p, p')
            && p'.size == p.size - fill.size && p'.markPrice == fill.price
            && p'.feesPaid == p.feesPaid + fill.fee
            && p'.realizedPnl == p.realizedPnl + (b'.realizedPnl - b.realizedPnl))
      && (fill.size > p.size ==>
            && FreshlyOpened(b'.positions[fill.symbol], fill, fill.size - p.size)
            && Unprotected(b'.positions[fill.symbol]))
  {
    RealizedIsEarned(b.positions[fill.symbol], fill);
  }

  lemma ClosureIsTold(b: Books, fill: Fill, order: Option<Order>)
    requires Sane(b) && fill.Valid()
    ensures var closed := Applied(b, fill, order).1;
      && (closed.Some? <==>
            && fill.symbol in b.positions && fill.size >= b.positions[fill.symbol].size
            && b.positions[fill.symbol].direction != if fill.side == Buy then Long else Short)
      && (closed.Some? ==>
            && var p, c := b.positions[fill.symbol], closed.value;
            && c.symbol == fill.symbol && c.direction == p.direction && c.size == p.size
            && c.entryPrice == p.entryPrice && c.exitPrice == fill.price
            && Earns(p, fill.price, p.size, c.realizedPnl)
            && c.feesPaid == p.feesPaid + fill.fee && ClosedFor(order, c.exitReason))
  {
    if fill.symbol in b.positions {
      RealizedIsEarned(b.positions[fill.symbol], fill);
    }
  }

  // ---- derived equity -------------------------------------------------

  function UnrealizedAt(b: Books, s: Symbol): real {
    if s in b.positions then b.positions[s].UnrealizedPnl() else 0.0
  }

  ghost function UnrealizedPnl(b: Books): real {
    SumOver(b.positions.Keys, s => UnrealizedAt(b, s))
  }

  ghost function GrossNotional(b: Books): real {
    SumOver(b.positions.Keys, s => if s in b.positions then b.positions[s].Notional() else 0.0)
  }

  ghost function Equity(b: Books): real {
    b.cash + UnrealizedPnl(b)
  }

  // ---- the mutable tracker --------------------------------------------

  class PortfolioTracker {
    var startingEquity: real
    var cash: real
    var realizedPnl: real
    var feesPaid: real
    var tradeCount: nat
    var winCount: nat
    var lossCount: nat
    var positions: map<Symbol, Position>
    var marks: map<Symbol, real>

    function Value(): Books
      reads this
    {
      Books(startingEquity, cash, realizedPnl, feesPaid, tradeCount, winCount, lossCount, positions, marks)
    }

    constructor (startingEquity: real)
      ensures Value() == FlatBooks(startingEquity) && Sane(Value())
    {
      this.startingEquity := startingEquity;
      cash := startingEquity;
      realizedPnl, feesPaid := 0.0, 0.0;
      tradeCount, winCount, lossCount := 0, 0, 0;
      positions, marks := map[], map[];
    }

    method Mark(symbol: Symbol, price: real) returns (revalued: bool)
      requires Sane(Value())
      modifies this
      ensures Value() == Marked(old(Value()), symbol, price) && Sane(Value())
      ensures revalued <==> price > 0.0 && symbol in old(positions)
    {
      if price <= 0.0 {
        return false;
      }
      marks := marks[symbol := price];
      if symbol !in positions {
        return false;
      }
      positions := positions[symbol := positions[symbol].(markPrice := price)];
      return true;
    }

    method ApplyFill(fill: Fill, order: Option<Order>) returns (closure: Option<PositionClosed>)
      requires fill.Valid() && Sane(Value())
      modifies this
      ensures (Value(), closure) == Applied(old(Value()), fill, order) && Sane(Value())
    {
      AppliedKeepsSane(Value(), fill, order);
      tradeCount := tradeCount + 1;
      cash := cash - fill.fee;
      feesPaid := feesPaid + fill.fee;
      marks := marks[fill.symbol := fill.price];
      closure := None;
      if fill.symbol !in positions {
        positions := positions[fill.symbol := Opened(fill, order)];
      } else if positions[fill.symbol].direction == fill.Direction() {
        positions := positions[fill.symbol := Added(positions[fill.symbol], fill)];
      } else {
        closure := ReduceOrFlip(positions[fill.symbol], fill, order);
      }
    }

    method ReduceOrFlip(existing: Position, fill: Fill, order: Option<Order>)
      returns (closure: Option<PositionClosed>)
      requires fill.symbol in positions && positions[fill.symbol] == existing
      requires existing.Valid() && fill.Valid()
      modifies this
      ensures var pnl := RealizedBy(existing, fill);
        && realizedPnl == old(realizedPnl) + pnl && cash == old(cash) + pnl
        && winCount == old(winCount) + (if pnl > 0.0 then 1 else 0)
        && lossCount == old(lossCount) + (if pnl < 0.0 then 1 else 0)
      ensures var after := AfterReduction(existing, fill);
        positions == if after.Some? then old(positions)[fill.symbol := after.value]
                     else old(positions) - {fill.symbol}
      ensures closure == if existing.size > fill.size then None else Some(Closure(existing, fill, order))
      ensures startingEquity == old(startingEquity) && feesPaid == old(feesPaid)
      ensures tradeCount == old(tradeCount) && marks == old(marks)
    {
      var closedSize := Min(existing.size, fill.size);
      var pnl := (fill.price - existing.entryPrice) * closedSize * Sign(existing.direction);
      realizedPnl := realizedPnl + pnl;
      cash := cash + pnl;
      if pnl > 0.0 {
        winCount := winCount + 1;
      } else if pnl < 0.0 {
        lossCount := lossCount + 1;
      }
      var remainder := fill.size - closedSize;
      if existing.size > closedSize {
        positions := positions[fill.symbol := Reduced(existing, fill)];
        return None;
      }
      positions := positions - {fill.symbol};
      closure := Some(Closure(existing, fill, order));
      if remainder > 0.0 {
        positions := positions[fill.symbol := Opened(fill.(size := remainder), None)];
      }
    }
  }

  // ---- histories ------------------------------------------------------

  datatype Event = Filled(fill: Fill, order: Option<Order>) | Priced(symbol: Symbol, price: real)

  predicate ValidHistory(events: seq<Event>) {
    forall i :: 0 <= i < |events| && events[i].Filled? ==> events[i].fill.Valid()
  }

  function Prefix(events: seq<Event>): seq<Event>
    requires events != []
  {
    events[..|events| - 1]
  }

  function Last(events: seq<Event>): Event
    requires events != []
  {
    events[|events| - 1]
  }

  /** The books after a whole history, starting flat. */
  function Run(start: real, events: seq<Event>): (b: Books)
    requires ValidHistory(events)
    ensures Sane(b)
  {
    if events == [] then FlatBooks(start)
    else
      var b := Run(start, Prefix(events));
      match Last(events)
      case Filled(fill, order) => AppliedKeepsSane(b, fill, order); Applied(b, fill, order).0
      case Priced(symbol, price) => Marked(b, symbol, price)
  }
}
