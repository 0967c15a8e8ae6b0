/** The position monitor: ratcheting protective stops and the exits they fire. */
module Monitor {
  import opened Schemas

  // ---- one guarded position as a value --------------------------------

  /** A guarded position. `extreme` is the best price seen since entry. */
  datatype Guard = Guard(
    direction: Direction,
    size: real,
    entryPrice: real,
    stopPrice: Option<real>,
    takeProfitPrice: Option<real>,
    trailingPct: Option<real>,
    extreme: Option<real>,
    exitPending: bool)
  {
    function Observed(price: real): Guard {
      if price <= 0.0 then this
      else if extreme == None then this.(extreme := Some(price))
      else if direction == Long then this.(extreme := Some(Max(extreme.value, price)))
      else this.(extreme := Some(Min(extreme.value, price)))
    }

    function TrailingStop(): Option<real> {
      if trailingPct == None || extreme == None then None
      else Some(TrailFrom(direction, trailingPct.value, extreme.value))
    }

    function EffectiveStop(): Option<real> {
      Tighter(direction, stopPrice, TrailingStop())
    }

    predicate StopHit(price: real) {
      EffectiveStop().Some? && AtOrBeyond(direction, EffectiveStop().value, price)
    }

    predicate TargetHit(price: real) {
      takeProfitPrice.Some? && AtTarget(direction, takeProfitPrice.value, price)
    }

    function StopReason(): ExitReason {
      if TrailingStop().Some?
         && (stopPrice == None || StrictlyTighter(direction, TrailingStop().value, stopPrice.value))
      then ExitReason.TrailingStop
      else ExitReason.StopLoss
    }

    /** The exit a price triggers; the stop is checked before the target. */
    function Breach(price: real): Option<ExitReason> {
      if StopHit(price) then Some(StopReason())
      else if TargetHit(price) then Some(TakeProfit)
      else None
    }
  }

  function TrailFrom(d: Direction, pct: real, extreme: real): real {
    if d == Long then extreme * (1.0 - pct / 100.0) else extreme * (1.0 + pct / 100.0)
  }

  /** The stop closer to price on the losing side. */
  function Tighter(d: Direction, fixed: Option<real>, trailing: Option<real>): Option<real> {
    if fixed == None then trailing
    else if trailing == None then fixed
    else if d == Long then Some(Max(fixed.value, trailing.value))
    else Some(Min(fixed.value, trailing.value))
  }

  predicate StrictlyTighter(d: Direction, a: real, b: real) {
    if d == Long then a > b else a < b
  }

  /** Price has reached a level that protects a position in direction `d`:
      fallen to it for a long, risen to it for a short. */
  predicate AtOrBeyond(d: Direction, level: real, price: real) {
    if d == Long then price <= level else price >= level
  }

  /** Price has reached a target: risen to it for a long, fallen to it for a short. */
  predicate AtTarget(d: Direction, level: real, price: real) {
    if d == Long then price >= level else price <= level
  }

  /** Stop `b` is at least as protective as stop `a`; no stop protects least. */
  predicate NoLooser(d: Direction, a: Option<real>, b: Option<real>) {
    a.Some? ==> b.Some? && (if d == Long then b.value >= a.value else b.value <= a.value)
  }

  // ---- the ratchet ----------------------------------------------------

  /** A percentage trails when moving the extreme favourably cannot move the stop back: up to 100% below
      the best price of a long, from -100% above the best price of a short. */
  predicate Trails(d: Direction, pct: real) {
    if d == Long then pct <= 100.0 else pct >= -100.0
  }

  predicate Ratchets(g: Guard) {
    g.trailingPct == None || Trails(g.direction, g.trailingPct.value)
  }

  /** A fixed stop that already dominates the trail keeps the effective stop where it is. */
  predicate FixedDominates(g: Guard) {
    && g.stopPrice.Some?
    && g.TrailingStop().Some?
    && (if g.direction == Long then g.stopPrice.value >= g.TrailingStop().value
        else g.stopPrice.value <= g.TrailingStop().value)
  }

  // ---- the levels in prices and percentages ---------------------------

  /** A price at or through a stop: the fixed level, or the trailing percentage off the best price. */
  predicate ReachesStop(d: Direction, fixed: Option<real>, pct: Option<real>, best: real, price: real) {
    if d == Long then
      || (fixed.Some? && price <= fixed.value)
      || (pct.Some? && price * 100.0 <= best * (100.0 - pct.value))
    else
      || (fixed.Some? && price >= fixed.value)
      || (pct.Some? && price * 100.0 >= best * (100.0 + pct.value))
  }

  /** A price at or through the target. */
  predicate ReachesTarget(d: Direction, target: Option<real>, price: real) {
    target.Some? && if d == Long then price >= target.value else price <= target.value
  }

  /** The level that binds when both kinds of stop are set, under the reason it is reported with: the fixed
      level unless the trailing one is strictly closer to the price. */
  predicate BindingStop(d: Direction, fixed: Option<real>, pct: Option<real>, best: real, level: real, reason: ExitReason) {
    match reason
    case StopLoss =>
      && fixed == Some(level)
      && (pct.Some? ==> if d == Long then level * 100.0 >= best * (100.0 - pct.value)
                        else level * 100.0 <= best * (100.0 + pct.value))
    case TrailingStop =>
      && pct.Some?
      && level * 100.0 == (if d == Long then best * (100.0 - pct.value) else best * (100.0 + pct.value))
      && (fixed.Some? ==> if d == Long then level > fixed.value else level < fixed.value)
    case _ => false
  }

  lemma TrailInPercent(d: Direction, pct: real, best: real)
    ensures TrailFrom(d, pct, best) * 100.0 == if d == Long then best * (100.0 - pct) else best * (100.0 + pct)
  {
    if d == Long {
      assert (1.0 - pct / 100.0) * 100.0 == 100.0 - pct;
    } else {
      assert (1.0 + pct / 100.0) * 100.0 == 100.0 + pct;
    }
  }

  lemma TrailReached(d: Direction, trail: real, scaled: real, price: real)
    requires trail * 100.0 == scaled
    ensures AtOrBeyond(d, trail, price) <==> if d == Long then price * 100.0 <= scaled else price * 100.0 >= scaled
  {
  }

  /** A price reaches the tighter of two stops exactly when it reaches one of them as written in percentages,
      and the tighter stop is the binding one. */
  lemma StopInPercent(d: Direction, fixed: Option<real>, pct: Option<real>, best: real, price: real)
    ensures var trail := if pct == None then None else Some(TrailFrom(d, pct.value, best));
      var stop := Tighter(d, fixed, trail);
      && (stop.Some? && AtOrBeyond(d, stop.value, price) <==> ReachesStop(d, fixed, pct, best, price))
      && (stop.Some? ==>
            BindingStop(d, fixed, pct, best, stop.value,
                        if trail.Some? && (fixed == None || StrictlyTighter(d, trail.value, fixed.value))
                        then ExitReason.TrailingStop else ExitReason.StopLoss))
  {
    if pct.Some? {
      var trail := TrailFrom(d, pct.value, best);
      TrailInPercent(d, pct.value, best);
      TrailReached(d, trail, if d == Long then best * (100.0 - pct.value) else best * (100.0 + pct.value), price);
      if fixed.Some? {
        TrailReached(d, trail, if d == Long then best * (100.0 - pct.value) else best * (100.0 + pct.value), fixed.value);
      }
    }
  }

  predicate ValidGuard(g: Guard) {
    && g.direction != Flat
    && (g.extreme.Some? ==> g.extreme.value > 0.0)
  }

  lemma TrailIsMonotone(d: Direction, pct: real, e: real, e': real)
    requires d != Flat && Trails(d, pct)
    requires if d == Long then e' >= e else e' <= e
    ensures if d == Long then TrailFrom(d, pct, e') >= TrailFrom(d, pct, e)
            else TrailFrom(d, pct, e') <= TrailFrom(d, pct, e)
  {
    if d == Long {
      assert (e' - e) * (1.0 - pct / 100.0) >= 0.0;
    } else {
      assert (e - e') * (1.0 + pct / 100.0) >= 0.0;
    }
  }

  lemma TrailLoosens(d: Direction, pct: real, e: real, e': real)
    requires d != Flat && !Trails(d, pct)
    requires if d == Long then e' > e else e' < e
    ensures if d == Long then TrailFrom(d, pct, e') < TrailFrom(d, pct, e)
            else TrailFrom(d, pct, e') > TrailFrom(d, pct, e)
  {
    if d == Long {
      assert (e' - e) * (1.0 - pct / 100.0) < 0.0;
    } else {
      assert (e - e') * (1.0 + pct / 100.0) < 0.0;
    }
  }

  /** The documented promise that a trailing stop ratchets and never loosens, with its exact
      condition, for any percentage the settings admit: it holds for every next price unless a long trails by
      more than 100%, or a short by less than -100%, with no fixed stop at least as tight. */
  lemma StopNeverLoosensIff(g: Guard)
    requires ValidGuard(g) && g.extreme.Some?
    ensures (forall price :: NoLooser(g.direction, g.EffectiveStop(), g.Observed(price).EffectiveStop()))
            <==> Ratchets(g) || FixedDominates(g)
  {
    if Ratchets(g) || FixedDominates(g) {
      forall price
        ensures NoLooser(g.direction, g.EffectiveStop(), g.Observed(price).EffectiveStop())
      {
        ObservingTightens(g, price);
      }
    } else {
      var price := if g.direction == Long then g.extreme.value + 1.0 else g.extreme.value / 2.0;
      TrailLoosens(g.direction, g.trailingPct.value, g.extreme.value, price);
      assert g.Observed(price).extreme == Some(price);
      assert !NoLooser(g.direction, g.EffectiveStop(), g.Observed(price).EffectiveStop());
    }
  }

  lemma ObservingTightens(g: Guard, price: real)
    requires ValidGuard(g) && (Ratchets(g) || FixedDominates(g))
    ensures NoLooser(g.direction, g.EffectiveStop(), g.Observed(price).EffectiveStop())
  {
    var g' := g.Observed(price);
    if g.TrailingStop().Some? {
      var pct, e, e' := g.trailingPct.value, g.extreme.value, g'.extreme.value;
      if Ratchets(g) {
        TrailIsMonotone(g.direction, pct, e, e');
      } else if e' != e {
        TrailLoosens(g.direction, pct, e, e');
      }
    }
  }

  // ---- the monitor's state as a value ---------------------------------

  datatype MonitorState = MonitorState(positions: map<Symbol, Guard>, pendingOrders: map<nat, Order>)

  const EMPTY := MonitorState(map[], map[])

  function Remembered(m: MonitorState, order: Order): MonitorState {
    if order.reduceOnly then m else m.(pendingOrders := m.pendingOrders[order.id := order])
  }

  /** Python's `a or b`: an absent or zero percentage falls back to the default. */
  function TrailOrDefault(pct: Option<real>, default: Option<real>): Option<real> {
    if pct.Some? && pct.value != 0.0 then pct else default
  }

  function Armed(fill: Fill, order: Order, defaultTrail: Option<real>): Guard {
    Guard(fill.Direction(), fill.size, fill.price, order.stopPrice, order.takeProfitPrice,
          TrailOrDefault(order.trailingStopPct, defaultTrail), Some(fill.price), false)
  }

  function AppliedFill(m: MonitorState, fill: Fill, defaultTrail: Option<real>): MonitorState {
    var s := fill.symbol;
    if s in m.positions && m.positions[s].direction != fill.Direction() then
      var g := m.positions[s];
      if g.size - fill.size <= 0.0 then m.(positions := m.positions - {s})
      else m.(positions := m.positions[s := g.(size := g.size - fill.size, exitPending := false)])
    else
      var popped := m.(pendingOrders := m.pendingOrders - {fill.orderId});
      if s in m.positions then
        var g := m.positions[s];
        popped.(positions := m.positions[s := g.(size := g.size + fill.size)])
      else if fill.orderId !in m.pendingOrders then popped
      else
        popped.(positions := m.positions[s := Armed(fill, m.pendingOrders[fill.orderId], defaultTrail)])
  }

  function Adopted(p: Position, defaultTrail: Option<real>): Guard {
    Guard(p.direction, p.size, p.entryPrice, p.stopPrice, p.takeProfitPrice,
          if p.trailingStopPct == None then defaultTrail else p.trailingStopPct,
          Some(p.markPrice), false)
  }

  /** Drop what the portfolio no longer holds, adopt what is not yet guarded. */
  function Reconciled(m: MonitorState, live: map<Symbol, Position>, defaultTrail: Option<real>): MonitorState {
    m.(positions := map s | s in live ::
         if s in m.positions then m.positions[s] else Adopted(live[s], defaultTrail))
  }

  /** The reconciled records of all but some live symbols. */
  ghost function ReconciledExcept(m: MonitorState, live: map<Symbol, Position>, rest: set<Symbol>,
                                  defaultTrail: Option<real>): map<Symbol, Guard> {
    map s | s in live && s !in rest :: if s in m.positions then m.positions[s] else Adopted(live[s], defaultTrail)
  }

  ghost function Retained(m: MonitorState, symbols: set<Symbol>): map<Symbol, Guard> {
    map s | s in m.positions && s in symbols :: m.positions[s]
  }

  lemma RetainingComesFirst(m: MonitorState, live: map<Symbol, Position>, defaultTrail: Option<real>)
    ensures Retained(m, live.Keys) == ReconciledExcept(m, live, live.Keys - m.positions.Keys, defaultTrail)
    ensures m.(positions := ReconciledExcept(m, live, {}, defaultTrail)) == Reconciled(m, live, defaultTrail)
  {
  }

  lemma AdoptingOne(m: MonitorState, live: map<Symbol, Position>, rest: set<Symbol>, s: Symbol, defaultTrail: Option<real>)
    requires s in rest && rest <= live.Keys - m.positions.Keys
    ensures ReconciledExcept(m, live, rest - {s}, defaultTrail)
            == ReconciledExcept(m, live, rest, defaultTrail)[s := Adopted(live[s], defaultTrail)]
  {
  }

  function ExitOrder(symbol: Symbol, g: Guard, reason: ExitReason, id: nat): Order {
    Order(id, symbol, if g.direction == Long then Sell else Buy, g.size, true, None, None, None, Some(reason))
  }

  /** One price tick: advance the extreme, then fire at most one exit. */
  function Ticked(m: MonitorState, symbol: Symbol, price: real, id: nat): (MonitorState, Option<Order>) {
    if symbol !in m.positions || price <= 0.0 then (m, None)
    else
      var g := m.positions[symbol].Observed(price);
      if g.exitPending || g.Breach(price) == None
      then (m.(positions := m.positions[symbol := g]), None)
      else (m.(positions := m.positions[symbol := g.(exitPending := true)]),
            Some(ExitOrder(symbol, g, g.Breach(price).value, id)))
  }

  lemma TickKeepsHoldings(m: MonitorState, symbol: Symbol, price: real, id: nat)
    ensures var m' := Ticked(m, symbol, price, id).0;
      && m'.positions.Keys == m.positions.Keys
      && m'.pendingOrders == m.pendingOrders
      && forall s :: s in m.positions ==>
           && m'.positions[s].direction == m.positions[s].direction
           && m'.positions[s].size == m.positions[s].size
           && m'.positions[s].stopPrice == m.positions[s].stopPrice
  {
    var m' := Ticked(m, symbol, price, id).0;
    assert m'.positions.Keys == m.positions.Keys;
  }

  /** An exit has been fired for the position and not yet answered by a fill. */
  predicate PendingFor(m: MonitorState, s: Symbol) {
    s in m.positions && m.positions[s].exitPending
  }

  // ---- the mutable monitor --------------------------------------------

  class ProtectedPosition {
    var direction: Direction
    var size: real
    var entryPrice: real
    var stopPrice: Option<real>
    var takeProfitPrice: Option<real>
    var trailingPct: Option<real>
    var extreme: Option<real>
    var exitPending: bool

    function Value(): Guard
      reads this
    {
      Guard(direction, size, entryPrice, stopPrice, takeProfitPrice, trailingPct, extreme, exitPending)
    }

    constructor (g: Guard)
      ensures Value() == g
    {
      direction, size, entryPrice := g.direction, g.size, g.entryPrice;
      stopPrice, takeProfitPrice, trailingPct := g.stopPrice, g.takeProfitPrice, g.trailingPct;
      extreme, exitPending := g.extreme, g.exitPending;
    }

    method Observe(price: real)
      modifies this`extreme
      ensures Value() == old(Value()).Observed(price)
    {
      if price <= 0.0 {
        return;
      }
      if extreme == None {
        extreme := Some(price);
      } else if direction == Long {
        extreme := Some(Max(extreme.value, price));
      } else {
        extreme := Some(Min(extreme.value, price));
      }
    }
  }

  class PositionMonitor {
    var positions: map<Symbol, ProtectedPosition>
    var pendingOrders: map<nat, Order>
    var exitsFired: nat
    const defaultTrail: Option<real>

    /** No two symbols share a record, so updating one leaves the others alone. */
    ghost predicate Valid()
      reads this
    {
      forall s, t :: s in positions && t in positions && s != t ==> positions[s] != positions[t]
    }

    ghost function Records(): set<object>
      reads this
    {
      set s | s in positions :: positions[s]
    }

    function Value(): MonitorState
      reads this, Records()
    {
      MonitorState(map s | s in positions :: positions[s].Value(), pendingOrders)
    }

    /** Updating the record of one symbol in place updates exactly that entry. */
    twostate lemma OnlyOneChanged(s: Symbol)
      requires old(Valid()) && positions == old(positions) && s in positions
      requires forall t :: t in positions && t != s ==> positions[t].Value() == old(positions[t].Value())
      ensures Value().positions == old(Value()).positions[s := positions[s].Value()]
    {
    }

    constructor (defaultTrail: Option<real>)
      ensures Valid() && Value() == EMPTY && this.defaultTrail == defaultTrail && exitsFired == 0
    {
      positions, pendingOrders, exitsFired := map[], map[], 0;
      this.defaultTrail := defaultTrail;
    }

    method RememberOrder(order: Order)
      requires Valid()
      modifies this`pendingOrders
      ensures Valid() && Value() == Remembered(old(Value()), order)
    {
      if !order.reduceOnly {
        pendingOrders := pendingOrders[order.id := order];
      }
    }

    method Resize(s: Symbol, size: real, exitPending: bool)
      requires Valid() && s in positions
      modifies positions[s]
      ensures positions == old(positions)
      ensures var m := old(Value());
        Value() == m.(positions := m.positions[s := m.positions[s].(size := size, exitPending := exitPending)])
    {
      positions[s].size := size;
      positions[s].exitPending := exitPending;
      OnlyOneChanged(s);
    }

    method Drop(s: Symbol)
      requires Valid()
      modifies this`positions
      ensures Valid() && Records() <= old(Records())
      ensures Value() == old(Value()).(positions := old(Value()).positions - {s})
    {
      positions := positions - {s};
    }

    method Guarding(s: Symbol, g: Guard)
      requires Valid()
      modifies this`positions
      ensures Valid() && fresh(Records() - old(Records()))
      ensures Value() == old(Value()).(positions := old(Value()).positions[s := g])
    {
      var record := new ProtectedPosition(g);
      positions := positions[s := record];
    }

    method PopOrder(id: nat) returns (order: Option<Order>)
      requires Valid()
      modifies this`pendingOrders
      ensures Valid() && Value() == old(Value()).(pendingOrders := old(pendingOrders) - {id})
      ensures order == if id in old(pendingOrders) then Some(old(pendingOrders)[id]) else None
    {
      order := if id in pendingOrders then Some(pendingOrders[id]) else None;
      pendingOrders := pendingOrders - {id};
    }

    method ApplyFill(fill: Fill)
      requires Valid()
      modifies this, Records()
      ensures Valid() && fresh(Records() - old(Records())) && exitsFired == old(exitsFired)
      ensures Value() == AppliedFill(old(Value()), fill, defaultTrail)
    {
      var s := fill.symbol;
      if s in positions && positions[s].direction != fill.Direction() {
        ReduceGuard(s, fill);
        return;
      }
      var order := PopOrder(fill.orderId);
      if s in positions {
        Resize(s, positions[s].size + fill.size, positions[s].exitPending);
      } else if order.Some? {
        Guarding(s, Armed(fill, order.value, defaultTrail));
      }
    }

    method ReduceGuard(s: Symbol, fill: Fill)
      requires Valid() && s in positions && s == fill.symbol
      requires positions[s].direction != fill.Direction()
      modifies this`positions, positions[s]
      ensures Valid() && Records() <= old(Records())
      ensures Value() == AppliedFill(old(Value()), fill, defaultTrail)
    {
      var remaining := positions[s].size - fill.size;
      if remaining <= 0.0 {
        Drop(s);
      } else {
        Resize(s, remaining, false);
      }
    }

    method OnPrice(symbol: Symbol, price: real, id: nat) returns (exit: Option<Order>)
      requires Valid()
      modifies this`exitsFired, Records()
      ensures Valid() && positions == old(positions)
      ensures Value() == Ticked(old(Value()), symbol, price, id).0
      ensures exit == Ticked(old(Value()), symbol, price, id).1
      ensures exitsFired == old(exitsFired) + (if exit.Some? then 1 else 0)
    {
      if symbol !in positions || price <= 0.0 {
        return None;
      }
      var record := positions[symbol];
      ghost var g := record.Value().Observed(price);
      record.Observe(price);
      OnlyOneChanged(symbol);
      if record.exitPending {
        return None;
      }
      var reason := record.Value().Breach(price);
      if reason == None {
        return None;
      }
      exit := Some(ExitOrder(symbol, record.Value(), reason.value, id));
      record.exitPending := true;
      assert record.Value() == g.(exitPending := true);
      OnlyOneChanged(symbol);
      exitsFired := exitsFired + 1;
    }

    method Reconcile(live: map<Symbol, Position>)
      requires Valid()
      modifies this`positions
      ensures Valid() && fresh(Records() - old(Records()))
      ensures Value() == Reconciled(old(Value()), live, defaultTrail)
    {
      ghost var before := Value();
      Retain(live.Keys);
      var todo := live.Keys - positions.Keys;
      RetainingComesFirst(before, live, defaultTrail);
      assert todo == live.Keys - before.positions.Keys;
      while todo != {}
        invariant Valid() && fresh(Records() - old(Records()))
        invariant todo <= live.Keys - before.positions.Keys
        invariant Value() == before.(positions := ReconciledExcept(before, live, todo, defaultTrail))
        decreases todo
      {
        var s :| s in todo;
        Guarding(s, Adopted(live[s], defaultTrail));
        AdoptingOne(before, live, todo, s, defaultTrail);
        todo := todo - {s};
      }
    }

    method Retain(symbols: set<Symbol>)
      requires Valid()
      modifies this`positions
      ensures Valid() && Records() <= old(Records()) && positions.Keys == old(positions).Keys * symbols
      ensures Value() == old(Value()).(positions := Retained(old(Value()), symbols))
    {
      positions := map s | s in positions && s in symbols :: positions[s];
    }
  }
}
