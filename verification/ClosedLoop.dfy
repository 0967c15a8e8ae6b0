/** The trading loop: decision engine, risk manager, paper broker, portfolio tracker and position
    monitor, each event run to completion before the next. */
module ClosedLoop {
  import opened Schemas
  import opened Sums
  import A = Agreement
  import B = PaperBroker
  import M = Monitor
  import Q = Rounding
  import R = RiskManager
  import T = Tracker

  datatype Config = Config(
    limits: R.Limits,
    startingEquity: real,
    minConfidence: real,
    slippageBps: real,
    feeBps: real,
    defaultTrail: Option<real>)
  {
    predicate Valid() {
      limits.Valid() && feeBps >= 0.0
    }
  }

  datatype Signal = Signal(
    symbol: Symbol,
    direction: Direction,
    confidence: real,
    referencePrice: Option<real>,
    suggestedStop: Option<real>,
    suggestedTakeProfit: Option<real>)

  /** The clock-dependent facts an event is processed under: the id drawn for any order, whether the
      cached book is recent enough, and the day's PnL in percent. */
  datatype Moment = Moment(freshId: nat, recent: bool, dayPnlPct: real)

  datatype Event =
    | SignalArrived(signal: Signal, accepted: bool, weightedConfidence: real, at: Moment)
    | BookArrived(book: B.OrderBook, published: bool, at: Moment)
    | TradeArrived(symbol: Symbol, price: real, at: Moment)

  datatype System = System(
    books: T.Books,
    orders: map<nat, Order>,
    monitor: M.MonitorState,
    portfolio: Option<R.Snapshot>,
    market: map<Symbol, B.OrderBook>,
    flips: nat)

  function Initial(cfg: Config): System {
    System(T.FlatBooks(cfg.startingEquity), map[], M.EMPTY, None, map[], 0)
  }

  // ---- one event ------------------------------------------------------

  /** Passthrough mode: `accepted` stands for the agent, degradation, expiry and cooldown checks. */
  function Decide(cfg: Config, s: Signal, accepted: bool, weighted: real): Option<R.Decision> {
    if !accepted || s.confidence <= 0.0 || s.direction == Flat || s.confidence < cfg.minConfidence then None
    else
      Some(R.Decision(s.symbol, if s.direction == Long then R.OpenLong else R.OpenShort, weighted,
                      s.referencePrice, s.suggestedStop, s.suggestedTakeProfit))
  }

  ghost function SnapshotOf(b: T.Books, at: Moment): R.Snapshot {
    R.Snapshot(T.Equity(b), T.GrossNotional(b), at.dayPnlPct, b.positions)
  }

  function MarketFor(sys: System, s: Symbol): Option<B.OrderBook> {
    if s in sys.market then Some(sys.market[s]) else None
  }

  function Executed(cfg: Config, sys: System, order: Order, at: Moment): B.Execution {
    B.Simulated(MarketFor(sys, order.symbol), at.recent, order, cfg.slippageBps, cfg.feeBps)
  }

  function Announced(sys: System, order: Order): System {
    sys.(orders := sys.orders[order.id := order], monitor := M.Remembered(sys.monitor, order))
  }

  /** A fill reaches the tracker and the monitor; the snapshot it publishes reaches risk and monitor. */
  ghost function Filled(cfg: Config, sys: System, fill: Fill, at: Moment): System
    requires T.Sane(sys.books) && fill.Valid()
  {
    var order := A.Cached(sys.orders, fill.orderId);
    var (m, b) := A.FillThenSnapshot(sys.monitor, sys.books, fill, order, cfg.defaultTrail);
    sys.(books := b,
         orders := sys.orders - {fill.orderId},
         monitor := m,
         portfolio := Some(SnapshotOf(b, at)),
         flips := sys.flips + if T.IsFlip(sys.books, fill) then 1 else 0)
  }

  ghost function Placed(cfg: Config, sys: System, order: Order, at: Moment): System
    requires T.Sane(sys.books)
  {
    var announced := Announced(sys, order);
    var e := Executed(cfg, sys, order, at);
    if e.Executed? && e.fill.Valid() then Filled(cfg, announced, e.fill, at) else announced
  }

  /** A price reaches the monitor; an exit it fires is placed at once. */
  ghost function Watched(cfg: Config, sys: System, symbol: Symbol, price: real, at: Moment): System
    requires T.Sane(sys.books)
  {
    var (m, exit) := M.Ticked(sys.monitor, symbol, price, at.freshId);
    var ticked := sys.(monitor := m);
    if exit.Some? then Placed(cfg, ticked, exit.value, at) else ticked
  }

  ghost function Marked(cfg: Config, sys: System, symbol: Symbol, mid: real, published: bool, at: Moment): System {
    var b := T.Marked(sys.books, symbol, mid);
    if published
    then sys.(books := b, portfolio := Some(SnapshotOf(b, at)),
              monitor := M.Reconciled(sys.monitor, b.positions, cfg.defaultTrail))
    else sys.(books := b)
  }

  function VerdictOn(cfg: Config, sys: System, d: R.Decision, at: Moment): R.Verdict {
    R.Evaluated(cfg.limits, sys.portfolio, cfg.startingEquity, d, at.freshId)
  }

  ghost function Stepped(cfg: Config, sys: System, e: Event): System
    requires T.Sane(sys.books)
  {
    match e
    case SignalArrived(s, accepted, weighted, at) =>
      var d := Decide(cfg, s, accepted, weighted);
      if d == None then sys
      else
        var v := VerdictOn(cfg, sys, d.value, at);
        if v.Approved? then Placed(cfg, sys, v.order, at) else sys
    case BookArrived(book, published, at) =>
      var cached := sys.(market := sys.market[book.symbol := book]);
      var mid := book.Mid();
      if mid == None then cached
      else Watched(cfg, Marked(cfg, cached, book.symbol, mid.value, published, at), book.symbol, mid.value, at)
    case TradeArrived(symbol, price, at) =>
      Watched(cfg, sys, symbol, price, at)
  }

  // ---- the invariant --------------------------------------------------

  /** Risk's view may lag on prices but never on what is held. */
  predicate RiskSeesHoldings(portfolio: Option<R.Snapshot>, positions: map<Symbol, Position>) {
    var seen := R.PositionsOf(portfolio);
    && seen.Keys == positions.Keys
    && forall s :: s in positions ==> seen[s].direction == positions[s].direction
  }

  predicate Guarded(m: M.MonitorState) {
    forall s :: s in m.positions ==> m.positions[s].stopPrice.Some?
  }

  predicate Safe(cfg: Config, sys: System) {
    && T.Sane(sys.books)
    && A.Agree(sys.monitor, sys.books)
    && Guarded(sys.monitor)
    && RiskSeesHoldings(sys.portfolio, sys.books.positions)
    && |sys.books.positions| <= cfg.limits.maxOpenPositions
    && sys.flips == 0
    && forall s :: s in sys.market ==> sys.market[s].Valid()
  }

  /** An order that opens or adds: within the position count, never against what is held. */
  predicate OpensSafely(cfg: Config, sys: System, o: Order) {
    var held := sys.books.positions;
    && o.size > 0.0 && !o.reduceOnly && o.stopPrice.Some?
    && (if o.symbol in held then held[o.symbol].direction == (if o.side == Buy then Long else Short)
        else |held| < cfg.limits.maxOpenPositions)
  }

  /** An order that reduces: against the position and no larger than it. */
  predicate ReducesSafely(sys: System, o: Order) {
    var held := sys.books.positions;
    && o.size > 0.0 && o.reduceOnly && o.symbol in held
    && held[o.symbol].direction != (if o.side == Buy then Long else Short)
    && o.size <= held[o.symbol].size
  }

  lemma AgreedSnapshotChangesNothing(m: M.MonitorState, b: T.Books, trail: Option<real>)
    requires A.Agree(m, b)
    ensures M.Reconciled(m, b.positions, trail) == m
  {
  }

  lemma AnnouncingIsSafe(cfg: Config, sys: System, order: Order)
    requires Safe(cfg, sys)
    ensures Safe(cfg, Announced(sys, order))
  {
  }

  lemma FillCountsPositions(b: T.Books, fill: Fill, order: Option<Order>)
    requires T.Sane(b) && fill.Valid() && !T.IsFlip(b, fill)
    ensures var b' := T.Applied(b, fill, order).0;
      |b'.positions| <= if fill.symbol in b.positions then |b.positions| else |b.positions| + 1
  {
  }

  /** A fill of an order that is safe to execute. */
  predicate Fills(cfg: Config, sys: System, fill: Fill, order: Order) {
    && fill.symbol == order.symbol && fill.side == order.side && fill.size <= order.size
    && fill.orderId == order.id
    && (if order.reduceOnly then ReducesSafely(sys, order)
        else OpensSafely(cfg, sys, order) && order.id in sys.monitor.pendingOrders
             && sys.monitor.pendingOrders[order.id] == order)
  }

  /** What one safe fill does to the two copies of the holdings. */
  lemma FillKeepsCopies(cfg: Config, sys: System, fill: Fill, order: Order, cached: Option<Order>)
    requires Safe(cfg, sys) && fill.Valid() && Fills(cfg, sys, fill, order)
    ensures var m, b := M.AppliedFill(sys.monitor, fill, cfg.defaultTrail), T.Applied(sys.books, fill, cached).0;
      A.Agree(m, b) && T.Sane(b) && |b.positions| <= cfg.limits.maxOpenPositions
    ensures !T.IsFlip(sys.books, fill)
  {
    assert !T.IsFlip(sys.books, fill) && !A.OpensUnknown(sys.monitor, sys.books, fill);
    A.FillKeepsAgreementIff(sys.monitor, sys.books, fill, cached, cfg.defaultTrail);
    T.AppliedKeepsSane(sys.books, fill, cached);
    FillCountsPositions(sys.books, fill, cached);
  }

  lemma FillKeepsGuarded(m: M.MonitorState, fill: Fill, order: Order, trail: Option<real>)
    requires Guarded(m) && fill.orderId == order.id
    requires order.id in m.pendingOrders && fill.symbol !in m.positions ==>
               m.pendingOrders[order.id] == order && order.stopPrice.Some?
    ensures Guarded(M.AppliedFill(m, fill, trail))
  {
  }

  lemma FillIsSafe(cfg: Config, sys: System, fill: Fill, order: Order, at: Moment)
    requires Safe(cfg, sys) && fill.Valid() && Fills(cfg, sys, fill, order)
    ensures Safe(cfg, Filled(cfg, sys, fill, at))
    ensures Filled(cfg, sys, fill, at).monitor == M.AppliedFill(sys.monitor, fill, cfg.defaultTrail)
  {
    var cached := A.Cached(sys.orders, fill.orderId);
    FillKeepsCopies(cfg, sys, fill, order, cached);
    FillKeepsGuarded(sys.monitor, fill, order, cfg.defaultTrail);
    AgreedSnapshotChangesNothing(M.AppliedFill(sys.monitor, fill, cfg.defaultTrail),
                                 T.Applied(sys.books, fill, cached).0, cfg.defaultTrail);
  }

  /** Placing a safe order either announces it only, or also applies its fill to monitor and books. */
  lemma PlacedEffect(cfg: Config, sys: System, order: Order, at: Moment)
    requires cfg.Valid() && Safe(cfg, sys)
    requires OpensSafely(cfg, sys, order) || ReducesSafely(sys, order)
    ensures var e := Executed(cfg, sys, order, at);
      && Safe(cfg, Placed(cfg, sys, order, at))
      && (e.Executed? ==>
            && e.fill.symbol == order.symbol && e.fill.side == order.side
            && Placed(cfg, sys, order, at).monitor
               == M.AppliedFill(M.Remembered(sys.monitor, order), e.fill, cfg.defaultTrail))
      && (!e.Executed? ==> Placed(cfg, sys, order, at) == Announced(sys, order))
  {
    AnnouncingIsSafe(cfg, sys, order);
    B.ExecutedFillIsBounded(MarketFor(sys, order.symbol), at.recent, order, cfg.slippageBps, cfg.feeBps);
    var e := Executed(cfg, sys, order, at);
    if e.Executed? {
      FillIsSafe(cfg, Announced(sys, order), e.fill, order, at);
    }
  }

  lemma ExitReducesSafely(cfg: Config, sys: System, symbol: Symbol, price: real, at: Moment)
    requires Safe(cfg, sys) && M.Ticked(sys.monitor, symbol, price, at.freshId).1.Some?
    ensures ReducesSafely(sys, M.Ticked(sys.monitor, symbol, price, at.freshId).1.value)
  {
  }

  lemma TickingIsSafe(cfg: Config, sys: System, symbol: Symbol, price: real, id: nat)
    requires Safe(cfg, sys)
    ensures Safe(cfg, sys.(monitor := M.Ticked(sys.monitor, symbol, price, id).0))
  {
    M.TickKeepsHoldings(sys.monitor, symbol, price, id);
  }

  lemma WatchingIsSafe(cfg: Config, sys: System, symbol: Symbol, price: real, at: Moment)
    requires cfg.Valid() && Safe(cfg, sys)
    ensures Safe(cfg, Watched(cfg, sys, symbol, price, at))
  {
    var (m, exit) := M.Ticked(sys.monitor, symbol, price, at.freshId);
    var ticked := sys.(monitor := m);
    TickingIsSafe(cfg, sys, symbol, price, at.freshId);
    if exit.Some? {
      ExitReducesSafely(cfg, sys, symbol, price, at);
      PlacedEffect(cfg, ticked, exit.value, at);
    }
  }

  lemma MarkingIsSafe(cfg: Config, sys: System, symbol: Symbol, mid: real, published: bool, at: Moment)
    requires Safe(cfg, sys)
    ensures Safe(cfg, Marked(cfg, sys, symbol, mid, published, at))
    ensures Marked(cfg, sys, symbol, mid, published, at).monitor == sys.monitor
  {
    T.MarkKeepsHoldings(sys.books, symbol, mid);
    RemarkedIsSafe(cfg, sys, T.Marked(sys.books, symbol, mid), published, at);
  }

  lemma RemarkedIsSafe(cfg: Config, sys: System, b: T.Books, published: bool, at: Moment)
    requires Safe(cfg, sys) && T.Sane(b)
    requires b.positions.Keys == sys.books.positions.Keys && |b.positions| == |sys.books.positions|
    requires forall s :: s in b.positions ==>
               && b.positions[s].direction == sys.books.positions[s].direction
               && b.positions[s].size == sys.books.positions[s].size
    ensures M.Reconciled(sys.monitor, b.positions, cfg.defaultTrail) == sys.monitor
    ensures Safe(cfg, sys.(books := b))
    ensures Safe(cfg, sys.(books := b, portfolio := Some(SnapshotOf(b, at))))
  {
    AgreedSnapshotChangesNothing(sys.monitor, b, cfg.defaultTrail);
  }

  /** Risk approves only orders that are safe against what the tracker really holds. */
  lemma ApprovedOrderIsSafe(cfg: Config, sys: System, s: Signal, accepted: bool, weighted: real, at: Moment)
    requires cfg.Valid() && Safe(cfg, sys)
    requires var d := Decide(cfg, s, accepted, weighted); d.Some? && VerdictOn(cfg, sys, d.value, at).Approved?
    ensures var o := VerdictOn(cfg, sys, Decide(cfg, s, accepted, weighted).value, at).order;
      OpensSafely(cfg, sys, o) && o.symbol == s.symbol
  {
    var d := Decide(cfg, s, accepted, weighted).value;
    R.ApprovalIsSafe(cfg.limits, sys.portfolio, cfg.startingEquity, d, at.freshId);
    var seen := R.PositionsOf(sys.portfolio);
    assert |seen| == |seen.Keys| == |sys.books.positions.Keys| == |sys.books.positions|;
  }

  predicate ValidEvent(e: Event) {
    e.BookArrived? ==> e.book.Valid()
  }

  lemma BookIsSafe(cfg: Config, sys: System, book: B.OrderBook, published: bool, at: Moment)
    requires cfg.Valid() && Safe(cfg, sys) && book.Valid()
    ensures Safe(cfg, Stepped(cfg, sys, BookArrived(book, published, at)))
  {
    var cached := sys.(market := sys.market[book.symbol := book]);
    assert Safe(cfg, cached);
    if book.Mid().Some? {
      var mid := book.Mid().value;
      MarkingIsSafe(cfg, cached, book.symbol, mid, published, at);
      WatchingIsSafe(cfg, Marked(cfg, cached, book.symbol, mid, published, at), book.symbol, mid, at);
    }
  }

  lemma StepIsSafe(cfg: Config, sys: System, e: Event)
    requires cfg.Valid() && Safe(cfg, sys) && ValidEvent(e)
    ensures Safe(cfg, Stepped(cfg, sys, e))
  {
    match e {
      case SignalArrived(s, accepted, weighted, at) =>
        var d := Decide(cfg, s, accepted, weighted);
        if d.Some? && VerdictOn(cfg, sys, d.value, at).Approved? {
          ApprovedOrderIsSafe(cfg, sys, s, accepted, weighted, at);
          PlacedEffect(cfg, sys, VerdictOn(cfg, sys, d.value, at).order, at);
        }
      case BookArrived(book, published, at) =>
        BookIsSafe(cfg, sys, book, published, at);
      case TradeArrived(symbol, price, at) =>
        WatchingIsSafe(cfg, sys, symbol, price, at);
    }
  }

  // ---- whole runs -----------------------------------------------------

  predicate ValidRun(events: seq<Event>) {
    forall i :: 0 <= i < |events| ==> ValidEvent(events[i])
  }

  lemma PlacingKeepsSane(cfg: Config, sys: System, order: Order, at: Moment)
    requires T.Sane(sys.books)
    ensures T.Sane(Placed(cfg, sys, order, at).books)
  {
    var announced := Announced(sys, order);
    var e := Executed(cfg, sys, order, at);
    if e.Executed? && e.fill.Valid() {
      T.AppliedKeepsSane(sys.books, e.fill, A.Cached(announced.orders, e.fill.orderId));
    }
  }

  lemma WatchingKeepsSane(cfg: Config, sys: System, symbol: Symbol, price: real, at: Moment)
    requires T.Sane(sys.books)
    ensures T.Sane(Watched(cfg, sys, symbol, price, at).books)
  {
    var (m, exit) := M.Ticked(sys.monitor, symbol, price, at.freshId);
    if exit.Some? {
      PlacingKeepsSane(cfg, sys.(monitor := m), exit.value, at);
    }
  }

  lemma StepKeepsSane(cfg: Config, sys: System, e: Event)
    requires T.Sane(sys.books)
    ensures T.Sane(Stepped(cfg, sys, e).books)
  {
    match e {
      case SignalArrived(s, accepted, weighted, at) =>
        var d := Decide(cfg, s, accepted, weighted);
        if d.Some? && VerdictOn(cfg, sys, d.value, at).Approved? {
          PlacingKeepsSane(cfg, sys, VerdictOn(cfg, sys, d.value, at).order, at);
        }
      case BookArrived(book, published, at) =>
        if book.Mid().Some? {
          var cached := sys.(market := sys.market[book.symbol := book]);
          var marked := Marked(cfg, cached, book.symbol, book.Mid().value, published, at);
          T.MarkKeepsHoldings(sys.books, book.symbol, book.Mid().value);
          WatchingKeepsSane(cfg, marked, book.symbol, book.Mid().value, at);
        }
      case TradeArrived(symbol, price, at) =>
        WatchingKeepsSane(cfg, sys, symbol, price, at);
    }
  }

  ghost function RunFrom(cfg: Config, sys: System, events: seq<Event>): (r: System)
    requires T.Sane(sys.books)
    ensures T.Sane(r.books)
  {
    if events == [] then sys
    else
      var before := RunFrom(cfg, sys, events[..|events| - 1]);
      StepKeepsSane(cfg, before, events[|events| - 1]);
      Stepped(cfg, before, events[|events| - 1])
  }

  lemma RunFromStep(cfg: Config, sys: System, events: seq<Event>, k: nat)
    requires T.Sane(sys.books) && k < |events|
    ensures RunFrom(cfg, sys, events[..k + 1]) == Stepped(cfg, RunFrom(cfg, sys, events[..k]), events[k])
  {
    assert events[..k + 1][..k] == events[..k];
  }

  lemma {:induction false} RunIsSafe(cfg: Config, sys: System, events: seq<Event>)
    requires cfg.Valid() && Safe(cfg, sys) && ValidRun(events)
    ensures Safe(cfg, RunFrom(cfg, sys, events))
    decreases |events|
  {
    if events != [] {
      var before := events[..|events| - 1];
      RunIsSafe(cfg, sys, before);
      StepIsSafe(cfg, RunFrom(cfg, sys, before), events[|events| - 1]);
    }
  }

  /** Main result: from flat, over every run, the tracker never takes its flip branch, the number of open
      positions never exceeds the limit, and every open position is guarded in its direction and size by
      a monitor record that has a stop. */
  lemma LoopIsSafe(cfg: Config, events: seq<Event>)
    requires cfg.Valid() && ValidRun(events)
    ensures var sys := RunFrom(cfg, Initial(cfg), events);
      && sys.flips == 0
      && |sys.books.positions| <= cfg.limits.maxOpenPositions
      && sys.monitor.positions.Keys == sys.books.positions.Keys
      && forall s :: s in sys.books.positions ==>
           && sys.monitor.positions[s].size == sys.books.positions[s].size
           && sys.monitor.positions[s].direction == sys.books.positions[s].direction
           && sys.monitor.positions[s].stopPrice.Some?
  {
    assert Safe(cfg, Initial(cfg));
    RunIsSafe(cfg, Initial(cfg), events);
    var sys := RunFrom(cfg, Initial(cfg), events);
    assert forall s :: s in sys.books.positions ==> s in sys.monitor.positions.Keys;
  }

  /** After any run from flat, every order risk approves keeps the notional cap, the leverage headroom and
      the stop-loss budget at the decision's price, and is safe against the tracker's real holdings. */
  lemma ApprovalsKeepLimits(cfg: Config, events: seq<Event>, s: Signal, accepted: bool, weighted: real, at: Moment)
    requires cfg.Valid() && ValidRun(events)
    requires var sys := RunFrom(cfg, Initial(cfg), events); var d := Decide(cfg, s, accepted, weighted);
      d.Some? && VerdictOn(cfg, sys, d.value, at).Approved?
    ensures var sys := RunFrom(cfg, Initial(cfg), events); var d := Decide(cfg, s, accepted, weighted).value;
      && d.referencePrice.Some? && d.referencePrice.value > 0.0
      && var order := VerdictOn(cfg, sys, d, at).order;
      && R.WithinLimits(cfg.limits, R.TermsOf(cfg.limits, sys.portfolio, cfg.startingEquity, d), order.size)
      && OpensSafely(cfg, sys, order)
  {
    RunIsSafe(cfg, Initial(cfg), events);
    var sys := RunFrom(cfg, Initial(cfg), events);
    R.ApprovalIsSafe(cfg.limits, sys.portfolio, cfg.startingEquity, Decide(cfg, s, accepted, weighted).value, at.freshId);
    ApprovedOrderIsSafe(cfg, sys, s, accepted, weighted, at);
  }

  // ---- what each event may do to the holdings -------------------------

  lemma PlacedBooks(cfg: Config, sys: System, order: Order, at: Moment)
    requires T.Sane(sys.books)
    ensures var e := Executed(cfg, sys, order, at);
      Placed(cfg, sys, order, at).books
      == if e.Executed? && e.fill.Valid() then T.Applied(sys.books, e.fill, Some(order)).0 else sys.books
  {
  }

  predicate SameHolding(p: Position, q: Position) {
    p.direction == q.direction && p.size == q.size && p.entryPrice == q.entryPrice
  }

  /** Every holding but one symbol's is what it was. */
  ghost predicate OthersKept(b: T.Books, b': T.Books, s: Symbol) {
    forall t :: t != s ==>
      (t in b.positions <==> t in b'.positions) && (t in b.positions ==> SameHolding(b.positions[t], b'.positions[t]))
  }

  /** A holding taken, or made larger, in the direction of a signal that was accepted with enough confidence; a new one
      with the stop and target asked for, the stop replaced by the default distance if it is unusable. */
  predicate TakenOn(cfg: Config, b: T.Books, b': T.Books, s: Signal, accepted: bool) {
    && accepted && s.direction != Flat && s.confidence > 0.0 && s.confidence >= cfg.minConfidence
    && s.symbol in b'.positions
    && var now := b'.positions[s.symbol];
    && now.direction == s.direction
    && if s.symbol in b.positions
       then b.positions[s.symbol].direction == s.direction && b.positions[s.symbol].size < now.size
       else && s.referencePrice.Some? && now.stopPrice.Some? && now.takeProfitPrice == s.suggestedTakeProfit
            && R.StopTold(cfg.limits, s.suggestedStop, s.referencePrice.value, s.direction == Long, now.stopPrice.value)
  }

  lemma OpeningFillTakes(b: T.Books, fill: Fill, order: Order)
    requires T.Sane(b) && fill.Valid() && !order.reduceOnly
    requires fill.symbol in b.positions ==> b.positions[fill.symbol].direction == fill.Direction()
    ensures var b' := T.Applied(b, fill, Some(order)).0;
      && OthersKept(b, b', fill.symbol) && fill.symbol in b'.positions
      && b'.positions[fill.symbol].direction == fill.Direction()
      && (fill.symbol in b.positions ==> b.positions[fill.symbol].size < b'.positions[fill.symbol].size)
      && (fill.symbol !in b.positions ==> T.ProtectedBy(b'.positions[fill.symbol], order))
  {
  }

  /** A signal either leaves the holdings alone or takes its own symbol on in its own direction. */
  lemma SignalTakesItsDirection(cfg: Config, sys: System, s: Signal, accepted: bool, weighted: real, at: Moment)
    requires cfg.Valid() && Safe(cfg, sys)
    ensures var b, b' := sys.books, Stepped(cfg, sys, SignalArrived(s, accepted, weighted, at)).books;
      b' == b || (OthersKept(b, b', s.symbol) && TakenOn(cfg, b, b', s, accepted))
  {
    var d := Decide(cfg, s, accepted, weighted);
    if d.Some? && VerdictOn(cfg, sys, d.value, at).Approved? {
      var order := VerdictOn(cfg, sys, d.value, at).order;
      var e := Executed(cfg, sys, order, at);
      ApprovedOrderIsSafe(cfg, sys, s, accepted, weighted, at);
      R.ApprovedStop(cfg.limits, sys.portfolio, cfg.startingEquity, d.value, at.freshId);
      R.ApprovedOrder(cfg.limits, sys.portfolio, cfg.startingEquity, d.value, at.freshId);
      PlacedBooks(cfg, sys, order, at);
      B.ExecutedFillIsBounded(MarketFor(sys, order.symbol), at.recent, order, cfg.slippageBps, cfg.feeBps);
      if e.Executed? {
        OpeningFillTakes(sys.books, e.fill, order);
      }
    }
  }

  lemma SignalPlaces(cfg: Config, sys: System, s: Signal, accepted: bool, weighted: real, at: Moment) returns (order: Order)
    requires T.Sane(sys.books)
    requires var d := Decide(cfg, s, accepted, weighted); d.Some? && VerdictOn(cfg, sys, d.value, at).Approved?
    ensures order == VerdictOn(cfg, sys, Decide(cfg, s, accepted, weighted).value, at).order
    ensures Stepped(cfg, sys, SignalArrived(s, accepted, weighted, at)) == Placed(cfg, sys, order, at)
  {
    order := VerdictOn(cfg, sys, Decide(cfg, s, accepted, weighted).value, at).order;
  }

  /** What a signal asks for: long for a long view, short for a short one. */
  function Asked(s: Signal, weighted: real): R.Decision {
    R.Decision(s.symbol, if s.direction == Short then R.OpenShort else R.OpenLong, weighted, s.referencePrice,
               s.suggestedStop, s.suggestedTakeProfit)
  }

  /** Placing an order that only opens changes the holdings exactly when the broker executes it. */
  lemma PlacingTakesIff(cfg: Config, sys: System, order: Order, at: Moment)
    requires cfg.Valid() && Safe(cfg, sys) && OpensSafely(cfg, sys, order)
    ensures Placed(cfg, sys, order, at).books != sys.books <==> Executed(cfg, sys, order, at).Executed?
  {
    var e := Executed(cfg, sys, order, at);
    PlacedBooks(cfg, sys, order, at);
    B.ExecutedFillIsBounded(MarketFor(sys, order.symbol), at.recent, order, cfg.slippageBps, cfg.feeBps);
    if e.Executed? {
      OpeningFillTakes(sys.books, e.fill, order);
    }
  }

  /** When it takes its symbol on: exactly when it is directional, accepted with enough confidence, and the order risk
      approves for it executes. */
  lemma SignalTakesIff(cfg: Config, sys: System, s: Signal, accepted: bool, weighted: real, at: Moment)
    requires cfg.Valid() && Safe(cfg, sys)
    ensures var v := VerdictOn(cfg, sys, Asked(s, weighted), at);
      Stepped(cfg, sys, SignalArrived(s, accepted, weighted, at)).books != sys.books
      <==> && accepted && s.direction != Flat && s.confidence > 0.0 && s.confidence >= cfg.minConfidence
           && v.Approved? && Executed(cfg, sys, v.order, at).Executed?
  {
    var d := Decide(cfg, s, accepted, weighted);
    if d.Some? {
      assert d.value == Asked(s, weighted);
      var v := VerdictOn(cfg, sys, d.value, at);
      if v.Approved? {
        ApprovedOrderIsSafe(cfg, sys, s, accepted, weighted, at);
        PlacingTakesIff(cfg, sys, v.order, at);
      }
    }
  }

  /** Nothing is opened, enlarged or turned. */
  ghost predicate OnlyReduced(b: T.Books, b': T.Books) {
    forall t :: t in b'.positions ==>
      && t in b.positions && b'.positions[t].direction == b.positions[t].direction
      && b'.positions[t].size <= b.positions[t].size && b'.positions[t].entryPrice == b.positions[t].entryPrice
  }

  lemma ReducingFillReduces(b: T.Books, fill: Fill, order: Option<Order>)
    requires T.Sane(b) && fill.Valid() && fill.symbol in b.positions
    requires b.positions[fill.symbol].direction != fill.Direction() && fill.size <= b.positions[fill.symbol].size
    ensures OnlyReduced(b, T.Applied(b, fill, order).0)
  {
  }

  lemma WatchingOnlyReduces(cfg: Config, sys: System, symbol: Symbol, price: real, at: Moment)
    requires cfg.Valid() && Safe(cfg, sys)
    ensures OnlyReduced(sys.books, Watched(cfg, sys, symbol, price, at).books)
  {
    var (m, exit) := M.Ticked(sys.monitor, symbol, price, at.freshId);
    if exit.Some? {
      var ticked := sys.(monitor := m);
      var e := Executed(cfg, ticked, exit.value, at);
      ExitReducesSafely(cfg, sys, symbol, price, at);
      PlacedBooks(cfg, ticked, exit.value, at);
      B.ExecutedFillIsBounded(MarketFor(ticked, exit.value.symbol), at.recent, exit.value, cfg.slippageBps, cfg.feeBps);
      if e.Executed? {
        ReducingFillReduces(sys.books, e.fill, Some(exit.value));
      }
    }
  }

  lemma MarkingOnlyMarks(b: T.Books, symbol: Symbol, mid: real)
    ensures OnlyReduced(b, T.Marked(b, symbol, mid))
    ensures forall b' :: OnlyReduced(T.Marked(b, symbol, mid), b') ==> OnlyReduced(b, b')
  {
  }

  /** No book and no trade ever opens, enlarges or turns a position: only a signal takes one on. */
  lemma OnlySignalsTake(cfg: Config, sys: System, e: Event)
    requires cfg.Valid() && Safe(cfg, sys) && ValidEvent(e) && !e.SignalArrived?
    ensures OnlyReduced(sys.books, Stepped(cfg, sys, e).books)
  {
    if e.TradeArrived? {
      WatchingOnlyReduces(cfg, sys, e.symbol, e.price, e.at);
    } else if e.book.Mid().Some? {
      var cached, mid := sys.(market := sys.market[e.book.symbol := e.book]), e.book.Mid().value;
      assert Safe(cfg, cached);
      MarkingIsSafe(cfg, cached, e.book.symbol, mid, e.published, e.at);
      var marked := Marked(cfg, cached, e.book.symbol, mid, e.published, e.at);
      WatchingOnlyReduces(cfg, marked, e.book.symbol, mid, e.at);
      MarkingOnlyMarks(sys.books, e.book.symbol, mid);
    }
  }

  // ---- every guard carries its position's levels ----------------------

  /** A guard with its position's stop and target, and its trail or, where that is absent or zero, the default. */
  predicate CarriesLevels(cfg: Config, g: M.Guard, p: Position) {
    && g.stopPrice == p.stopPrice && g.takeProfitPrice == p.takeProfitPrice
    && g.trailingPct == if p.trailingStopPct.Some? && p.trailingStopPct.value != 0.0 then p.trailingStopPct
                        else cfg.defaultTrail
  }

  predicate LevelsCarried(cfg: Config, m: M.MonitorState, b: T.Books) {
    forall s :: s in m.positions && s in b.positions ==> CarriesLevels(cfg, m.positions[s], b.positions[s])
  }

  lemma FillCarriesLevels(cfg: Config, m: M.MonitorState, b: T.Books, fill: Fill, order: Order)
    requires T.Sane(b) && fill.Valid() && A.Agree(m, b) && LevelsCarried(cfg, m, b) && fill.orderId == order.id
    requires if order.reduceOnly
             then fill.symbol in b.positions && b.positions[fill.symbol].direction != fill.Direction()
                  && fill.size <= b.positions[fill.symbol].size
             else (fill.symbol in b.positions ==> b.positions[fill.symbol].direction == fill.Direction())
                  && order.id in m.pendingOrders && m.pendingOrders[order.id] == order
    ensures LevelsCarried(cfg, M.AppliedFill(m, fill, cfg.defaultTrail), T.Applied(b, fill, Some(order)).0)
  {
  }

  lemma PlacingCarriesLevels(cfg: Config, sys: System, order: Order, at: Moment)
    requires cfg.Valid() && Safe(cfg, sys) && LevelsCarried(cfg, sys.monitor, sys.books)
    requires OpensSafely(cfg, sys, order) || ReducesSafely(sys, order)
    ensures LevelsCarried(cfg, Placed(cfg, sys, order, at).monitor, Placed(cfg, sys, order, at).books)
  {
    var e := Executed(cfg, sys, order, at);
    PlacedEffect(cfg, sys, order, at);
    PlacedBooks(cfg, sys, order, at);
    B.ExecutedFillIsBounded(MarketFor(sys, order.symbol), at.recent, order, cfg.slippageBps, cfg.feeBps);
    if e.Executed? {
      FillCarriesLevels(cfg, M.Remembered(sys.monitor, order), sys.books, e.fill, order);
    }
  }

  lemma TickingCarriesLevels(cfg: Config, m: M.MonitorState, b: T.Books, symbol: Symbol, price: real, id: nat)
    requires LevelsCarried(cfg, m, b)
    ensures LevelsCarried(cfg, M.Ticked(m, symbol, price, id).0, b)
  {
  }

  lemma MarkingCarriesLevels(cfg: Config, m: M.MonitorState, b: T.Books, symbol: Symbol, mid: real)
    requires LevelsCarried(cfg, m, b)
    ensures LevelsCarried(cfg, m, T.Marked(b, symbol, mid))
  {
  }

  lemma WatchingCarriesLevels(cfg: Config, sys: System, symbol: Symbol, price: real, at: Moment)
    requires cfg.Valid() && Safe(cfg, sys) && LevelsCarried(cfg, sys.monitor, sys.books)
    ensures var sys' := Watched(cfg, sys, symbol, price, at); LevelsCarried(cfg, sys'.monitor, sys'.books)
  {
    var (m, exit) := M.Ticked(sys.monitor, symbol, price, at.freshId);
    TickingIsSafe(cfg, sys, symbol, price, at.freshId);
    TickingCarriesLevels(cfg, sys.monitor, sys.books, symbol, price, at.freshId);
    if exit.Some? {
      ExitReducesSafely(cfg, sys, symbol, price, at);
      PlacingCarriesLevels(cfg, sys.(monitor := m), exit.value, at);
    }
  }

  lemma StepCarriesLevels(cfg: Config, sys: System, e: Event)
    requires cfg.Valid() && Safe(cfg, sys) && ValidEvent(e) && LevelsCarried(cfg, sys.monitor, sys.books)
    ensures var sys' := Stepped(cfg, sys, e); LevelsCarried(cfg, sys'.monitor, sys'.books)
  {
    match e {
      case SignalArrived(s, accepted, weighted, at) =>
        var d := Decide(cfg, s, accepted, weighted);
        if d.Some? && VerdictOn(cfg, sys, d.value, at).Approved? {
          ApprovedOrderIsSafe(cfg, sys, s, accepted, weighted, at);
          PlacingCarriesLevels(cfg, sys, VerdictOn(cfg, sys, d.value, at).order, at);
        }
      case BookArrived(book, published, at) =>
        if book.Mid().Some? {
          var cached, mid := sys.(market := sys.market[book.symbol := book]), book.Mid().value;
          assert Safe(cfg, cached);
          MarkingIsSafe(cfg, cached, book.symbol, mid, published, at);
          MarkingCarriesLevels(cfg, sys.monitor, sys.books, book.symbol, mid);
          WatchingCarriesLevels(cfg, Marked(cfg, cached, book.symbol, mid, published, at), book.symbol, mid, at);
        }
      case TradeArrived(symbol, price, at) =>
        WatchingCarriesLevels(cfg, sys, symbol, price, at);
    }
  }

  /** Over every run from flat, what the monitor guards a position with is what its order asked for. */
  lemma {:induction false} GuardsCarryLevels(cfg: Config, events: seq<Event>)
    requires cfg.Valid() && ValidRun(events)
    ensures var sys := RunFrom(cfg, Initial(cfg), events); LevelsCarried(cfg, sys.monitor, sys.books)
    decreases |events|
  {
    if events != [] {
      var before := events[..|events| - 1];
      GuardsCarryLevels(cfg, before);
      assert Safe(cfg, Initial(cfg));
      RunIsSafe(cfg, Initial(cfg), before);
      StepCarriesLevels(cfg, RunFrom(cfg, Initial(cfg), before), events[|events| - 1]);
    }
  }

  /** A monitor restarted on the tracker's snapshot after any run: it guards the same positions at the same sizes, stops
      and targets, best price at the mark, nothing pending. Arming replaces a zero trail by the default and adopting
      does not, so the trails agree if and only if the position's is not zero (an order's schema admits only positive
      ones) or the default is zero too. */
  lemma RestartGuardsAlike(cfg: Config, events: seq<Event>)
    requires cfg.Valid() && ValidRun(events)
    ensures var sys := RunFrom(cfg, Initial(cfg), events);
      var restarted := M.Reconciled(M.EMPTY, sys.books.positions, cfg.defaultTrail);
      && restarted.positions.Keys == sys.monitor.positions.Keys == sys.books.positions.Keys
      && forall s :: s in sys.books.positions ==>
           && var g, r, p := sys.monitor.positions[s], restarted.positions[s], sys.books.positions[s];
           && r.direction == g.direction && r.size == g.size
           && r.stopPrice == g.stopPrice && r.takeProfitPrice == g.takeProfitPrice
           && r.entryPrice == p.entryPrice && r.extreme == Some(p.markPrice) && !r.exitPending
           && (r.trailingPct == g.trailingPct <==> p.trailingStopPct != Some(0.0) || cfg.defaultTrail == Some(0.0))
  {
    var sys := RunFrom(cfg, Initial(cfg), events);
    LoopIsSafe(cfg, events);
    GuardsCarryLevels(cfg, events);
    forall s | s in sys.books.positions
      ensures s in sys.monitor.positions && CarriesLevels(cfg, sys.monitor.positions[s], sys.books.positions[s])
    {
      assert s in sys.monitor.positions.Keys;
    }
  }

  // ---- what an approved order adds up to ------------------------------

  /** What a held position is worth at a price. */
  function HeldWorth(b: T.Books, s: Symbol, price: real): real {
    if s in b.positions then R.Worth(b.positions[s].size, price) else 0.0
  }

  /** How far a held position's mark is behind a price, in notional. */
  function MarkGap(b: T.Books, s: Symbol, price: real): real {
    if s in b.positions then R.Worth(b.positions[s].size, price) - b.positions[s].Notional() else 0.0
  }

  predicate OpensOrAdds(b: T.Books, fill: Fill) {
    fill.symbol in b.positions ==> b.positions[fill.symbol].direction == fill.Direction()
  }

  lemma WorthAdds(x: real, y: real, price: real)
    ensures R.Worth(x + y, price) == R.Worth(x, price) + R.Worth(y, price)
  {
  }

  /** A fill that opens or adds leaves its position worth what was held plus what was filled. */
  lemma FilledWorth(b: T.Books, fill: Fill, order: Option<Order>)
    requires T.Sane(b) && fill.Valid() && OpensOrAdds(b, fill)
    ensures HeldWorth(T.Applied(b, fill, order).0, fill.symbol, fill.price)
            == HeldWorth(b, fill.symbol, fill.price) + R.Worth(fill.size, fill.price)
  {
    if fill.symbol in b.positions {
      WorthAdds(b.positions[fill.symbol].size, fill.size, fill.price);
    }
  }

  function NotionalAt(b: T.Books, s: Symbol): real {
    if s in b.positions then b.positions[s].Notional() else 0.0
  }

  lemma NotionalAtSymbol(b: T.Books, fill: Fill, order: Option<Order>)
    requires T.Sane(b) && fill.Valid() && OpensOrAdds(b, fill)
    ensures NotionalAt(T.Applied(b, fill, order).0, fill.symbol)
            == NotionalAt(b, fill.symbol) + R.Worth(fill.size, fill.price) + MarkGap(b, fill.symbol, fill.price)
  {
    FilledWorth(b, fill, order);
  }

  /** It moves gross notional by what was filled and by marking what was held to the fill's price. */
  lemma FilledGross(b: T.Books, fill: Fill, order: Option<Order>)
    requires T.Sane(b) && fill.Valid() && OpensOrAdds(b, fill)
    ensures T.GrossNotional(T.Applied(b, fill, order).0)
            == T.GrossNotional(b) + R.Worth(fill.size, fill.price) + MarkGap(b, fill.symbol, fill.price)
  {
    var b', s := T.Applied(b, fill, order).0, fill.symbol;
    A.OthersUntouched(M.EMPTY, b, fill, order, None);
    SumOverChange(b.positions.Keys, s, t => NotionalAt(b, t), t => NotionalAt(b', t));
    assert b'.positions.Keys == b.positions.Keys + {s};
    GrossIsSum(b);
    GrossIsSum(b');
    NotionalAtSymbol(b, fill, order);
  }

  lemma GrossIsSum(b: T.Books)
    ensures T.GrossNotional(b) == SumOver(b.positions.Keys, t => NotionalAt(b, t))
  {
    SumOverExtensional(b.positions.Keys, s => if s in b.positions then b.positions[s].Notional() else 0.0,
                       t => NotionalAt(b, t));
  }

  /** A fill of an approved order at the price it was approved at, however much of it executes. */
  ghost predicate FillsApproved(cfg: Config, sys: System, d: R.Decision, at: Moment, fill: Fill) {
    && fill.Valid() && d.action.Direction() != Flat && VerdictOn(cfg, sys, d, at).Approved?
    && var o := VerdictOn(cfg, sys, d, at).order;
    && fill.symbol == o.symbol && fill.side == o.side && fill.size <= o.size && Some(fill.price) == d.referencePrice
  }

  lemma ApprovedFillFits(cfg: Config, sys: System, d: R.Decision, at: Moment, fill: Fill)
    requires cfg.Valid() && Safe(cfg, sys) && FillsApproved(cfg, sys, d, at, fill)
    ensures OpensOrAdds(sys.books, fill)
    ensures R.Worth(fill.size, fill.price) <= cfg.limits.maxPositionNotional
    ensures R.Worth(fill.size, fill.price) <= R.Headroom(cfg.limits, R.TermsOf(cfg.limits, sys.portfolio, cfg.startingEquity, d))
  {
    R.ApprovalIsSafe(cfg.limits, sys.portfolio, cfg.startingEquity, d, at.freshId);
    WorthGrows(fill.size, VerdictOn(cfg, sys, d, at).order.size, fill.price);
  }

  lemma WorthGrows(x: real, y: real, price: real)
    requires x <= y && price > 0.0
    ensures R.Worth(x, price) <= R.Worth(y, price)
  {
    assert (y - x) * price >= 0.0;
  }

  /** The notional cap is kept per order, not (as documented) per position. A position opened by an approved order
      is within the cap at the order's price; a position added to is worth exactly what was held plus what was
      filled, so it breaks the cap if and only if what was held left less room than the fill takes. */
  lemma PositionKeepsCapIff(cfg: Config, sys: System, d: R.Decision, at: Moment, fill: Fill, order: Option<Order>)
    requires cfg.Valid() && Safe(cfg, sys) && FillsApproved(cfg, sys, d, at, fill)
    ensures var b', cap := T.Applied(sys.books, fill, order).0, cfg.limits.maxPositionNotional;
      && (HeldWorth(b', fill.symbol, fill.price) <= cap
          <==> HeldWorth(sys.books, fill.symbol, fill.price) <= cap - R.Worth(fill.size, fill.price))
      && (fill.symbol !in sys.books.positions ==> HeldWorth(b', fill.symbol, fill.price) <= cap)
  {
    ApprovedFillFits(cfg, sys, d, at, fill);
    FilledWorth(sys.books, fill, order);
  }

  /** With risk's view up to date, gross notional after the fill is within equity times leverage, but for marking
      what was held of the symbol to the fill's price: exactly so when none was. */
  lemma GrossKeepsLeverage(cfg: Config, sys: System, d: R.Decision, at: Moment, fill: Fill, order: Option<Order>)
    requires cfg.Valid() && Safe(cfg, sys) && FillsApproved(cfg, sys, d, at, fill)
    requires sys.portfolio == Some(SnapshotOf(sys.books, at))
    ensures T.GrossNotional(T.Applied(sys.books, fill, order).0)
            <= T.Equity(sys.books) * cfg.limits.maxPortfolioLeverage + MarkGap(sys.books, fill.symbol, fill.price)
    ensures fill.symbol !in sys.books.positions ==> MarkGap(sys.books, fill.symbol, fill.price) == 0.0
  {
    ApprovedFillFits(cfg, sys, d, at, fill);
    FilledGross(sys.books, fill, order);
    HeadroomLeft(cfg, sys, d, at, R.Worth(fill.size, fill.price));
  }

  lemma HeadroomLeft(cfg: Config, sys: System, d: R.Decision, at: Moment, worth: real)
    requires sys.portfolio == Some(SnapshotOf(sys.books, at)) && d.referencePrice.Some? && d.referencePrice.value > 0.0
    requires worth <= R.Headroom(cfg.limits, R.TermsOf(cfg.limits, sys.portfolio, cfg.startingEquity, d))
    ensures T.GrossNotional(sys.books) + worth <= T.Equity(sys.books) * cfg.limits.maxPortfolioLeverage
  {
  }

  // ---- a rejected exit ------------------------------------------------

  predicate Stranded(sys: System, s: Symbol) {
    s in sys.books.positions && M.PendingFor(sys.monitor, s)
  }

  lemma ReducingFillReleases(m: M.MonitorState, fill: Fill, trail: Option<real>)
    requires fill.symbol in m.positions && m.positions[fill.symbol].direction != fill.Direction()
    ensures !M.PendingFor(M.AppliedFill(m, fill, trail), fill.symbol)
  {
  }

  lemma UnrelatedFillKeepsPending(m: M.MonitorState, fill: Fill, trail: Option<real>, s: Symbol)
    requires M.PendingFor(m, s)
    requires fill.symbol == s ==> m.positions[s].direction == fill.Direction()
    ensures M.PendingFor(M.AppliedFill(m, fill, trail), s)
  {
  }

  lemma PlacedExitStrandsIff(cfg: Config, sys: System, exit: Order, at: Moment)
    requires cfg.Valid() && Safe(cfg, sys) && ReducesSafely(sys, exit) && Stranded(sys, exit.symbol)
    ensures Stranded(Placed(cfg, sys, exit, at), exit.symbol) <==> !Executed(cfg, sys, exit, at).Executed?
  {
    PlacedEffect(cfg, sys, exit, at);
    var e := Executed(cfg, sys, exit, at);
    if e.Executed? {
      assert M.Remembered(sys.monitor, exit) == sys.monitor;
      assert exit.symbol in sys.monitor.positions.Keys;
      ReducingFillReleases(sys.monitor, e.fill, cfg.defaultTrail);
    }
  }

  lemma ExitIsPending(cfg: Config, sys: System, s: Symbol, price: real, id: nat)
    requires Safe(cfg, sys) && M.Ticked(sys.monitor, s, price, id).1.Some?
    ensures var (m, exit) := M.Ticked(sys.monitor, s, price, id);
      Stranded(sys.(monitor := m), s) && exit.value.symbol == s
  {
  }

  /** A price that fires an exit leaves the position stranded exactly when the broker cannot execute the exit. */
  lemma WatchedExitStrandsIff(cfg: Config, sys: System, s: Symbol, price: real, at: Moment)
    requires cfg.Valid() && Safe(cfg, sys) && M.Ticked(sys.monitor, s, price, at.freshId).1.Some?
    ensures var exit := M.Ticked(sys.monitor, s, price, at.freshId).1.value;
      Stranded(Watched(cfg, sys, s, price, at), s)
      <==> B.Unexecutable(MarketFor(sys, s), at.recent, exit, cfg.slippageBps)
  {
    var (m, exit) := M.Ticked(sys.monitor, s, price, at.freshId);
    TickingIsSafe(cfg, sys, s, price, at.freshId);
    ExitReducesSafely(cfg, sys, s, price, at);
    ExitIsPending(cfg, sys, s, price, at.freshId);
    PlacedExitStrandsIff(cfg, sys.(monitor := m), exit.value, at);
    B.ExecutesIff(MarketFor(sys, s), at.recent, exit.value, cfg.slippageBps, cfg.feeBps);
  }

  /** A trade that fires an exit strands its position exactly when the cached book is missing, stale or without
      depth on the closing side, or prices the exit at zero or below. */
  lemma ExitStrandsIffUnexecuted(cfg: Config, sys: System, s: Symbol, price: real, at: Moment)
    requires cfg.Valid() && Safe(cfg, sys) && M.Ticked(sys.monitor, s, price, at.freshId).1.Some?
    ensures var exit := M.Ticked(sys.monitor, s, price, at.freshId).1.value;
      Stranded(Stepped(cfg, sys, TradeArrived(s, price, at)), s)
      <==> B.Unexecutable(MarketFor(sys, s), at.recent, exit, cfg.slippageBps)
  {
    WatchedExitStrandsIff(cfg, sys, s, price, at);
  }

  /** The system with a book cached and its mid marked, before the monitor looks at it. */
  ghost function BookMarked(cfg: Config, sys: System, book: B.OrderBook, published: bool, at: Moment): System
    requires book.Mid().Some?
  {
    Marked(cfg, sys.(market := sys.market[book.symbol := book]), book.symbol, book.Mid().value, published, at)
  }

  lemma BookMarks(cfg: Config, sys: System, book: B.OrderBook, published: bool, at: Moment)
    requires Safe(cfg, sys) && book.Valid() && book.Mid().Some?
    ensures var marked := BookMarked(cfg, sys, book, published, at);
      && Safe(cfg, marked) && marked.monitor == sys.monitor && MarketFor(marked, book.symbol) == Some(book)
  {
    var cached := sys.(market := sys.market[book.symbol := book]);
    assert Safe(cfg, cached);
    MarkingIsSafe(cfg, cached, book.symbol, book.Mid().value, published, at);
  }

  /** The same for a book whose mid fires the exit, judged against that very book. */
  lemma BookExitStrandsIffUnexecuted(cfg: Config, sys: System, book: B.OrderBook, published: bool, at: Moment)
    requires cfg.Valid() && Safe(cfg, sys) && book.Valid() && book.Mid().Some?
    requires M.Ticked(sys.monitor, book.symbol, book.Mid().value, at.freshId).1.Some?
    ensures var exit := M.Ticked(sys.monitor, book.symbol, book.Mid().value, at.freshId).1.value;
      Stranded(Stepped(cfg, sys, BookArrived(book, published, at)), book.symbol)
      <==> B.Unexecutable(Some(book), at.recent, exit, cfg.slippageBps)
  {
    BookMarks(cfg, sys, book, published, at);
    WatchedExitStrandsIff(cfg, BookMarked(cfg, sys, book, published, at), book.symbol, book.Mid().value, at);
  }

  lemma OtherFillKeepsStranded(cfg: Config, sys: System, order: Order, at: Moment, s: Symbol)
    requires cfg.Valid() && Safe(cfg, sys) && Stranded(sys, s)
    requires OpensSafely(cfg, sys, order) || (ReducesSafely(sys, order) && order.symbol != s)
    ensures Stranded(Placed(cfg, sys, order, at), s)
  {
    PlacedEffect(cfg, sys, order, at);
    var e := Executed(cfg, sys, order, at);
    if e.Executed? {
      UnrelatedFillKeepsPending(M.Remembered(sys.monitor, order), e.fill, cfg.defaultTrail, s);
      assert s in Placed(cfg, sys, order, at).monitor.positions.Keys;
    }
  }

  /** A pending position fires no second exit, and ticks elsewhere leave it alone. */
  lemma TickKeepsStranded(cfg: Config, sys: System, symbol: Symbol, price: real, id: nat, s: Symbol)
    requires Stranded(sys, s)
    ensures var (m, exit) := M.Ticked(sys.monitor, symbol, price, id);
      Stranded(sys.(monitor := m), s) && (exit.Some? ==> symbol != s && exit.value.symbol == symbol)
  {
  }

  lemma WatchingKeepsStranded(cfg: Config, sys: System, symbol: Symbol, price: real, at: Moment, s: Symbol)
    requires cfg.Valid() && Safe(cfg, sys) && Stranded(sys, s)
    ensures Stranded(Watched(cfg, sys, symbol, price, at), s)
  {
    var (m, exit) := M.Ticked(sys.monitor, symbol, price, at.freshId);
    TickingIsSafe(cfg, sys, symbol, price, at.freshId);
    TickKeepsStranded(cfg, sys, symbol, price, at.freshId, s);
    if exit.Some? {
      ExitReducesSafely(cfg, sys, symbol, price, at);
      OtherFillKeepsStranded(cfg, sys.(monitor := m), exit.value, at, s);
    }
  }

  lemma SignalKeepsStranded(cfg: Config, sys: System, sig: Signal, accepted: bool, weighted: real, at: Moment, s: Symbol)
    requires cfg.Valid() && Safe(cfg, sys) && Stranded(sys, s)
    ensures Stranded(Stepped(cfg, sys, SignalArrived(sig, accepted, weighted, at)), s)
  {
    var d := Decide(cfg, sig, accepted, weighted);
    if d.Some? && VerdictOn(cfg, sys, d.value, at).Approved? {
      ApprovedOrderIsSafe(cfg, sys, sig, accepted, weighted, at);
      OtherFillKeepsStranded(cfg, sys, VerdictOn(cfg, sys, d.value, at).order, at, s);
    }
  }

  lemma BookKeepsStranded(cfg: Config, sys: System, book: B.OrderBook, published: bool, at: Moment, s: Symbol)
    requires cfg.Valid() && Safe(cfg, sys) && book.Valid() && Stranded(sys, s)
    ensures Stranded(Stepped(cfg, sys, BookArrived(book, published, at)), s)
  {
    var cached := sys.(market := sys.market[book.symbol := book]);
    assert Safe(cfg, cached);
    if book.Mid().Some? {
      var mid := book.Mid().value;
      MarkingIsSafe(cfg, cached, book.symbol, mid, published, at);
      WatchingKeepsStranded(cfg, Marked(cfg, cached, book.symbol, mid, published, at), book.symbol, mid, at, s);
    }
  }

  lemma StepKeepsStranded(cfg: Config, sys: System, e: Event, s: Symbol)
    requires cfg.Valid() && Safe(cfg, sys) && ValidEvent(e) && Stranded(sys, s)
    ensures Stranded(Stepped(cfg, sys, e), s)
  {
    match e {
      case SignalArrived(sig, accepted, weighted, at) =>
        SignalKeepsStranded(cfg, sys, sig, accepted, weighted, at, s);
      case BookArrived(book, published, at) =>
        BookKeepsStranded(cfg, sys, book, published, at, s);
      case TradeArrived(symbol, price, at) =>
        WatchingKeepsStranded(cfg, sys, symbol, price, at, s);
    }
  }

  /** Once an exit has gone unexecuted nothing in the loop can close that position again: no price fires a
      second exit, and risk vetoes every opposing decision. It stays open over every continuation. */
  lemma {:induction false} StrandedForever(cfg: Config, sys: System, events: seq<Event>, s: Symbol)
    requires cfg.Valid() && Safe(cfg, sys) && ValidRun(events) && Stranded(sys, s)
    ensures Stranded(RunFrom(cfg, sys, events), s)
    decreases |events|
  {
    if events != [] {
      var before := events[..|events| - 1];
      StrandedForever(cfg, sys, before, s);
      RunIsSafe(cfg, sys, before);
      StepKeepsStranded(cfg, RunFrom(cfg, sys, before), events[|events| - 1], s);
    }
  }

  // ---- a run that strands ---------------------------------------------

  const EXAMPLE := Config(R.Limits(1000.0, 3.0, 3, 3.0, 100.0, 0.0, 50.0, 10.0, 0.15, None), 100.0, 0.0, 0.0, 0.0, None)
  const EXAMPLE_BOOK := B.OrderBook("BTC", [B.Level(100.0, 10.0)], [B.Level(100.0, 10.0)])
  const EXAMPLE_SIGNAL := Signal("BTC", Long, 1.0, Some(100.0), None, None)
  const IN_TIME := Moment(1, true, 0.0)
  const TOO_LATE := Moment(2, false, 0.0)

  /** A book and a long signal on it, then a trade through the stop when the book has gone stale. */
  const EXAMPLE_RUN := [
    BookArrived(EXAMPLE_BOOK, false, IN_TIME),
    SignalArrived(EXAMPLE_SIGNAL, true, 1.0, IN_TIME),
    TradeArrived("BTC", 40.0, TOO_LATE)]

  lemma ExampleTerms(d: R.Decision)
    requires d == Decide(EXAMPLE, EXAMPLE_SIGNAL, true, 1.0).value
    ensures var t := R.TermsOf(EXAMPLE.limits, None, 100.0, d);
      && t == R.Terms(100.0, Long, 50.0, 100.0, 0.0)
      && R.WithinLimits(EXAMPLE.limits, t, 2.0) && R.StopDistance(t) == 50.0 && R.Headroom(EXAMPLE.limits, t) == 300.0
  {
  }

  /** The signal is approved with a stop at 50. */
  lemma ExampleApproved(sys: System)
    requires sys.portfolio == None
    ensures var d := Decide(EXAMPLE, EXAMPLE_SIGNAL, true, 1.0);
      && d.Some? && VerdictOn(EXAMPLE, sys, d.value, IN_TIME).Approved?
      && var o := VerdictOn(EXAMPLE, sys, d.value, IN_TIME).order;
      && o.stopPrice == Some(50.0) && o.side == Buy && o.symbol == "BTC" && o.trailingStopPct == None && o.size >= 2.0
  {
    var l, d := EXAMPLE.limits, Decide(EXAMPLE, EXAMPLE_SIGNAL, true, 1.0).value;
    ExampleTerms(d);
    var t := R.TermsOf(l, None, 100.0, d);
    assert Q.Steps(200000000, Q.STEPS) == 2.0 && Q.Steps(20000, 100.0) == 200.0;
    R.SizeAtLeast(l, t, 200000000, 2.0);
    R.WorthAtLeast(R.FinalSize(l, t), 2.0, 100.0, 200.0);
    R.NotionalAtLeast(R.Worth(R.FinalSize(l, t), 100.0), 20000, 200.0);
    R.NoBreachMeansNoCondition(l, None, Long, d, R.SizedFor(l, t));
  }

  predicate ExampleGuards(m: M.MonitorState) {
    && "BTC" in m.positions
    && var g := m.positions["BTC"];
    && g.direction == Long && g.stopPrice == Some(50.0) && g.trailingPct == None && !g.exitPending
  }

  lemma ExampleExecutes(o: Order)
    requires o.side == Buy && o.size >= 2.0
    ensures var e := B.Simulated(Some(EXAMPLE_BOOK), true, o, 0.0, 0.0); e.Executed? && e.fill.orderId == o.id
  {
    assert EXAMPLE_BOOK.asks[1..] == [];
    assert B.Depth(EXAMPLE_BOOK.asks) == 10.0;
    B.BuyNeverBeatsBestAsk(EXAMPLE_BOOK.asks, o.size, 0.0);
    B.ExecutesIff(Some(EXAMPLE_BOOK), true, o, 0.0, 0.0);
    B.ExecutedFillIsBounded(Some(EXAMPLE_BOOK), true, o, 0.0, 0.0);
  }

  lemma ExampleArms(m: M.MonitorState, o: Order, fill: Fill)
    requires m.positions == map[] && !o.reduceOnly && o.stopPrice == Some(50.0) && o.trailingStopPct == None
    requires fill.orderId == o.id && fill.symbol == "BTC" && fill.side == Buy
    ensures ExampleGuards(M.AppliedFill(M.Remembered(m, o), fill, None))
  {
  }

  lemma ExamplePlaces(sys: System, o: Order)
    requires Safe(EXAMPLE, sys) && sys.monitor.positions == map[] && MarketFor(sys, "BTC") == Some(EXAMPLE_BOOK)
    requires OpensSafely(EXAMPLE, sys, o) && o.side == Buy && o.symbol == "BTC" && o.size >= 2.0
    requires o.stopPrice == Some(50.0) && o.trailingStopPct == None
    ensures ExampleGuards(Placed(EXAMPLE, sys, o, IN_TIME).monitor)
  {
    ExampleExecutes(o);
    PlacedEffect(EXAMPLE, sys, o, IN_TIME);
    ExampleArms(sys.monitor, o, Executed(EXAMPLE, sys, o, IN_TIME).fill);
  }

  /** Its order executes, and the monitor guards the position with that stop. */
  lemma ExampleOpens(sys: System)
    requires Safe(EXAMPLE, sys) && sys.portfolio == None && sys.monitor.positions == map[]
    requires MarketFor(sys, "BTC") == Some(EXAMPLE_BOOK)
    ensures ExampleGuards(Stepped(EXAMPLE, sys, EXAMPLE_RUN[1]).monitor)
  {
    ExampleApproved(sys);
    ApprovedOrderIsSafe(EXAMPLE, sys, EXAMPLE_SIGNAL, true, 1.0, IN_TIME);
    var order := SignalPlaces(EXAMPLE, sys, EXAMPLE_SIGNAL, true, 1.0, IN_TIME);
    ExamplePlaces(sys, order);
  }

  ghost function ExampleAfter(k: nat): System
    requires k <= |EXAMPLE_RUN|
  {
    RunFrom(EXAMPLE, Initial(EXAMPLE), EXAMPLE_RUN[..k])
  }

  lemma ExampleIsSafe(k: nat)
    requires k <= |EXAMPLE_RUN|
    ensures ValidRun(EXAMPLE_RUN) && Safe(EXAMPLE, ExampleAfter(k))
  {
    ExampleIsValid();
    RunIsSafe(EXAMPLE, Initial(EXAMPLE), EXAMPLE_RUN[..k]);
  }

  lemma ExampleIsValid()
    ensures EXAMPLE.Valid() && Safe(EXAMPLE, Initial(EXAMPLE)) && ValidRun(EXAMPLE_RUN)
  {
  }

  lemma ExampleAfterBook()
    ensures var sys := ExampleAfter(1);
      sys.portfolio == None && sys.monitor.positions == map[] && MarketFor(sys, "BTC") == Some(EXAMPLE_BOOK)
  {
    ExampleStep(0);
    assert EXAMPLE_RUN[..0] == [];
    ExampleSees();
  }

  lemma ExampleAfterSignal()
    ensures ExampleGuards(ExampleAfter(2).monitor)
  {
    ExampleAfterBook();
    ExampleIsSafe(1);
    ExampleStep(1);
    ExampleOpens(ExampleAfter(1));
  }

  /** Stranding happens: from flat, three events leave a position that no continuation closes. */
  lemma ExampleStrands()
    ensures ValidRun(EXAMPLE_RUN) && Stranded(RunFrom(EXAMPLE, Initial(EXAMPLE), EXAMPLE_RUN), "BTC")
  {
    ExampleAfterSignal();
    ExampleIsSafe(2);
    ExampleFires(ExampleAfter(2).monitor);
    ExitStrandsIffUnexecuted(EXAMPLE, ExampleAfter(2), "BTC", 40.0, TOO_LATE);
    ExampleStep(2);
    assert EXAMPLE_RUN[..3] == EXAMPLE_RUN;
  }

  lemma ExampleStep(k: nat)
    requires k < |EXAMPLE_RUN|
    ensures T.Sane(ExampleAfter(k).books) && ExampleAfter(k + 1) == Stepped(EXAMPLE, ExampleAfter(k), EXAMPLE_RUN[k])
  {
    RunFromStep(EXAMPLE, Initial(EXAMPLE), EXAMPLE_RUN, k);
  }

  /** The book is cached and nothing is held. */
  lemma ExampleSees()
    ensures var sys := Stepped(EXAMPLE, Initial(EXAMPLE), EXAMPLE_RUN[0]);
      sys.portfolio == None && sys.monitor.positions == map[] && MarketFor(sys, "BTC") == Some(EXAMPLE_BOOK)
  {
  }

  lemma ExampleFires(m: M.MonitorState)
    requires ExampleGuards(m)
    ensures M.Ticked(m, "BTC", 40.0, TOO_LATE.freshId).1.Some?
  {
  }
}
