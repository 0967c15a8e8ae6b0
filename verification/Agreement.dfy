/** The tracker and the monitor keep separate copies of each position from the same fills.
    When do the copies agree? */
module Agreement {
  import opened Schemas
  import T = Tracker
  import M = Monitor

  /** Same symbols, same directions, same sizes. */
  predicate Agree(m: M.MonitorState, b: T.Books) {
    && m.positions.Keys == b.positions.Keys
    && forall s :: s in b.positions ==>
         && m.positions[s].direction == b.positions[s].direction
         && m.positions[s].size == b.positions[s].size
  }

  /** A fill that opens a position under an order the monitor was never shown. */
  predicate OpensUnknown(m: M.MonitorState, b: T.Books, fill: Fill) {
    fill.symbol !in b.positions && fill.orderId !in m.pendingOrders
  }

  // ---- one fill -------------------------------------------------------

  /** Without help from a snapshot the copies stay together on every fill
      except a flip and an opening fill with an unknown order. */
  lemma FillKeepsAgreementIff(m: M.MonitorState, b: T.Books, fill: Fill, order: Option<Order>, trail: Option<real>)
    requires Agree(m, b) && T.Sane(b) && fill.Valid()
    ensures Agree(M.AppliedFill(m, fill, trail), T.Applied(b, fill, order).0)
            <==> !T.IsFlip(b, fill) && !OpensUnknown(m, b, fill)
  {
  }

  lemma OthersUntouched(m: M.MonitorState, b: T.Books, fill: Fill, order: Option<Order>, trail: Option<real>)
    requires T.Sane(b) && fill.Valid()
    ensures var m', b' := M.AppliedFill(m, fill, trail), T.Applied(b, fill, order).0;
      forall t :: t != fill.symbol ==>
        && (t in m'.positions <==> t in m.positions)
        && (t in m.positions ==> m'.positions[t] == m.positions[t])
        && (t in b'.positions <==> t in b.positions)
        && (t in b.positions ==> b'.positions[t] == b.positions[t])
  {
  }

  /** The same holdings, at whatever prices. */
  predicate SameHoldings(live: map<Symbol, Position>, b: T.Books) {
    && live.Keys == b.positions.Keys
    && forall s :: s in live ==>
         live[s].direction == b.positions[s].direction && live[s].size == b.positions[s].size
  }

  /** Whatever both machines hold, they hold alike; the next snapshot settles the rest. */
  predicate Repairable(m: M.MonitorState, b: T.Books) {
    forall s :: s in m.positions && s in b.positions ==>
      && m.positions[s].direction == b.positions[s].direction
      && m.positions[s].size == b.positions[s].size
  }

  lemma FillLeavesRepairable(m: M.MonitorState, b: T.Books, fill: Fill, order: Option<Order>, trail: Option<real>)
    requires Agree(m, b) && T.Sane(b) && fill.Valid()
    ensures Repairable(M.AppliedFill(m, fill, trail), T.Applied(b, fill, order).0)
  {
    OthersUntouched(m, b, fill, order, trail);
  }

  lemma DeliverySettles(m: M.MonitorState, b: T.Books, live: map<Symbol, Position>, trail: Option<real>)
    requires Repairable(m, b) && SameHoldings(live, b)
    ensures Agree(M.Reconciled(m, live, trail), b)
  {
  }

  /** A fill followed by the snapshot it publishes. */
  function FillThenSnapshot(m: M.MonitorState, b: T.Books, fill: Fill, order: Option<Order>, trail: Option<real>)
    : (M.MonitorState, T.Books)
    requires T.Sane(b) && fill.Valid()
  {
    var b' := T.Applied(b, fill, order).0;
    (M.Reconciled(M.AppliedFill(m, fill, trail), b'.positions, trail), b')
  }

  /** With its own snapshot handled next, every fill keeps the copies together:
      the snapshot repairs the two cases that the fill alone gets wrong. */
  lemma FillThenSnapshotAgrees(m: M.MonitorState, b: T.Books, fill: Fill, order: Option<Order>, trail: Option<real>)
    requires Agree(m, b) && T.Sane(b) && fill.Valid()
    ensures var (m', b') := FillThenSnapshot(m, b, fill, order, trail); Agree(m', b')
  {
    FillLeavesRepairable(m, b, fill, order, trail);
    DeliverySettles(M.AppliedFill(m, fill, trail), T.Applied(b, fill, order).0,
                    T.Applied(b, fill, order).0.positions, trail);
  }

  // ---- the other delivery order ---------------------------------------

  /** The snapshot of a fill reaching the monitor before the fill itself. */
  function SnapshotThenFill(m: M.MonitorState, b: T.Books, fill: Fill, order: Option<Order>, trail: Option<real>)
    : (M.MonitorState, T.Books)
    requires T.Sane(b) && fill.Valid()
  {
    var b' := T.Applied(b, fill, order).0;
    (M.AppliedFill(M.Reconciled(m, b'.positions, trail), fill, trail), b')
  }

  predicate ClosesExactly(b: T.Books, fill: Fill) {
    T.IsReduction(b, fill) && fill.size == b.positions[fill.symbol].size
  }

  lemma SnapshotFirstDoublesOpening(m: M.MonitorState, b: T.Books, fill: Fill, order: Option<Order>, trail: Option<real>)
    requires T.Sane(b) && fill.Valid() && fill.symbol !in b.positions && fill.symbol !in m.positions
    ensures var (m', b') := SnapshotThenFill(m, b, fill, order, trail);
      && fill.symbol in m'.positions && fill.symbol in b'.positions
      && m'.positions[fill.symbol].size == 2.0 * b'.positions[fill.symbol].size
  {
  }

  /** Snapshots and fills travel on different topics. Delivered in the wrong order they leave the
      copies in disagreement exactly when the fill opens a position (counted twice), flips one
      (dropped), or closes one under an order still remembered as an opening (resurrected). */
  lemma SnapshotFirstAgreesIff(m: M.MonitorState, b: T.Books, fill: Fill, order: Option<Order>, trail: Option<real>)
    requires Agree(m, b) && T.Sane(b) && fill.Valid()
    ensures var (m', b') := SnapshotThenFill(m, b, fill, order, trail);
      Agree(m', b')
      <==> && fill.symbol in b.positions
           && !T.IsFlip(b, fill)
           && (ClosesExactly(b, fill) ==> fill.orderId !in m.pendingOrders)
  {
  }

  // ---- whole runs -----------------------------------------------------

  /** Snapshots travel on their own topic: published by fills and marks, delivered later, in order. */
  datatype Event =
    | Ordered(order: Order)
    | Filled(fill: Fill)
    | Ticked(symbol: Symbol, price: real, freshId: nat)
    | Marked(symbol: Symbol, price: real, published: bool)
    | SnapshotDelivered

  /** Both machines, the portfolio manager's cache of orders, and the snapshots on their way to the monitor. */
  datatype Pair = Pair(
    monitor: M.MonitorState,
    books: T.Books,
    orders: map<nat, Order>,
    underway: seq<map<Symbol, Position>>)

  predicate ValidEvents(events: seq<Event>) {
    forall i :: 0 <= i < |events| && events[i].Filled? ==> events[i].fill.Valid()
  }

  function Cached(orders: map<nat, Order>, id: nat): Option<Order> {
    if id in orders then Some(orders[id]) else None
  }

  function Stepped(p: Pair, e: Event, trail: Option<real>): Pair
    requires T.Sane(p.books) && (e.Filled? ==> e.fill.Valid())
  {
    match e
    case Ordered(order) => p.(monitor := M.Remembered(p.monitor, order), orders := p.orders[order.id := order])
    case Filled(fill) =>
      var b := T.Applied(p.books, fill, Cached(p.orders, fill.orderId)).0;
      Pair(M.AppliedFill(p.monitor, fill, trail), b, p.orders - {fill.orderId}, p.underway + [b.positions])
    case Ticked(symbol, price, id) => p.(monitor := M.Ticked(p.monitor, symbol, price, id).0)
    case Marked(symbol, price, published) =>
      var b := T.Marked(p.books, symbol, price);
      p.(books := b, underway := if published then p.underway + [b.positions] else p.underway)
    case SnapshotDelivered =>
      if p.underway == [] then p
      else p.(monitor := M.Reconciled(p.monitor, p.underway[0], trail), underway := p.underway[1..])
  }

  function Run(start: real, events: seq<Event>, trail: Option<real>): (p: Pair)
    requires ValidEvents(events)
    ensures T.Sane(p.books)
  {
    if events == [] then Pair(M.EMPTY, T.FlatBooks(start), map[], [])
    else
      var p := Run(start, events[..|events| - 1], trail);
      var e := events[|events| - 1];
      if e.Filled? then
        T.AppliedKeepsSane(p.books, e.fill, Cached(p.orders, e.fill.orderId));
        Stepped(p, e, trail)
      else Stepped(p, e, trail)
  }

  /** Every fill finds the snapshots published before it delivered. */
  predicate InTurn(start: real, events: seq<Event>, trail: Option<real>)
    requires ValidEvents(events)
  {
    forall i :: 0 <= i < |events| && events[i].Filled? ==> Run(start, events[..i], trail).underway == []
  }

  predicate Settling(p: Pair) {
    && Repairable(p.monitor, p.books)
    && (forall i :: 0 <= i < |p.underway| ==> SameHoldings(p.underway[i], p.books))
    && (p.underway == [] ==> Agree(p.monitor, p.books))
  }

  lemma TickKeepsSettling(p: Pair, symbol: Symbol, price: real, id: nat, trail: Option<real>)
    requires Settling(p) && T.Sane(p.books)
    ensures Settling(Stepped(p, Ticked(symbol, price, id), trail))
  {
    M.TickKeepsHoldings(p.monitor, symbol, price, id);
  }

  lemma MarkKeepsSettling(p: Pair, symbol: Symbol, price: real, published: bool, trail: Option<real>)
    requires Settling(p) && T.Sane(p.books)
    ensures Settling(Stepped(p, Marked(symbol, price, published), trail))
  {
    T.MarkKeepsHoldings(p.books, symbol, price);
  }

  lemma StepKeepsSettling(p: Pair, e: Event, trail: Option<real>)
    requires Settling(p) && T.Sane(p.books)
    requires e.Filled? ==> e.fill.Valid() && p.underway == []
    ensures Settling(Stepped(p, e, trail))
  {
    match e {
      case Filled(fill) =>
        FillLeavesRepairable(p.monitor, p.books, fill, Cached(p.orders, fill.orderId), trail);
      case Ordered(order) =>
      case Ticked(symbol, price, id) =>
        TickKeepsSettling(p, symbol, price, id, trail);
      case Marked(symbol, price, published) =>
        MarkKeepsSettling(p, symbol, price, published, trail);
      case SnapshotDelivered =>
        if p.underway != [] {
          DeliverySettles(p.monitor, p.books, p.underway[0], trail);
        }
    }
  }

  lemma {:induction false} RunSettles(start: real, events: seq<Event>, trail: Option<real>)
    requires ValidEvents(events) && InTurn(start, events, trail)
    ensures Settling(Run(start, events, trail))
  {
    if events != [] {
      var before := events[..|events| - 1];
      forall i | 0 <= i < |before| && before[i].Filled?
        ensures Run(start, before[..i], trail).underway == []
      {
        assert before[..i] == events[..i];
      }
      RunSettles(start, before, trail);
      StepKeepsSettling(Run(start, before, trail), events[|events| - 1], trail);
    }
  }

  /** Main result: over any run of orders, fills (flips, unknown orders, any sizes), ticks, marks and delayed
      snapshots in which every fill finds the earlier snapshots delivered, whenever no snapshot is on its way the
      monitor guards exactly the tracker's open positions with their directions and sizes; in between, the two
      never hold one symbol differently. */
  lemma MonitorFollowsTracker(start: real, events: seq<Event>, trail: Option<real>)
    requires ValidEvents(events) && InTurn(start, events, trail)
    ensures var p := Run(start, events, trail);
      && (p.underway == [] ==> Agree(p.monitor, p.books))
      && Repairable(p.monitor, p.books)
  {
    RunSettles(start, events, trail);
  }

  /** The condition on delivery is needed. If a mark's snapshot of the old holdings arrives between a fill and its
      own snapshot, the two end in agreement exactly when the fill is not a flip: after a flip the stale snapshot
      puts the old position back under guard, and the flip's own snapshot leaves it there. */
  lemma StaleSnapshotAgreesIff(m: M.MonitorState, b: T.Books, fill: Fill, order: Option<Order>, trail: Option<real>)
    requires Agree(m, b) && T.Sane(b) && fill.Valid()
    ensures var b' := T.Applied(b, fill, order).0;
      var stale := M.Reconciled(M.AppliedFill(m, fill, trail), b.positions, trail);
      Agree(M.Reconciled(stale, b'.positions, trail), b') <==> !T.IsFlip(b, fill)
  {
    var b', s := T.Applied(b, fill, order).0, fill.symbol;
    var stale := M.Reconciled(M.AppliedFill(m, fill, trail), b.positions, trail);
    OthersUntouched(m, b, fill, order, trail);
    if T.IsFlip(b, fill) {
      assert b.positions[s].Valid();
      assert s in b'.positions && b'.positions[s].direction == fill.Direction();
      assert M.Reconciled(stale, b'.positions, trail).positions[s].direction == b.positions[s].direction;
    } else {
      assert Repairable(stale, b');
      DeliverySettles(stale, b', b'.positions, trail);
    }
  }

  /** With two fills outstanding there are further ways to part. An opening under an unknown order, then an addition
      under a known one, then both snapshots in order: the monitor guards the second fill only, and for good. */
  lemma OutstandingOpeningIsMissed(m: M.MonitorState, b: T.Books, first: Fill, second: Fill, order: Option<Order>,
                                   trail: Option<real>)
    requires Agree(m, b) && T.Sane(b) && first.Valid() && second.Valid()
    requires first.symbol == second.symbol && first.side == second.side && first.symbol !in b.positions
    requires first.orderId !in m.pendingOrders && second.orderId in m.pendingOrders && first.orderId != second.orderId
    ensures T.Sane(T.Applied(b, first, None).0)
    ensures var b1 := T.Applied(b, first, None).0;
      var b2 := T.Applied(b1, second, order).0;
      var filled := M.AppliedFill(M.AppliedFill(m, first, trail), second, trail);
      var m' := M.Reconciled(M.Reconciled(filled, b1.positions, trail), b2.positions, trail);
      && first.symbol in m'.positions && m'.positions[first.symbol].size == second.size
      && first.symbol in b2.positions && b2.positions[first.symbol].size == first.size + second.size
  {
    T.AppliedKeepsSane(b, first, None);
  }
}
