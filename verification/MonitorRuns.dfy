/** What the position monitor does over whole runs, told from the prices alone. */
module MonitorRuns {
  import opened Schemas
  import opened Monitor

  // ---- price history --------------------------------------------------

  /** The best price for a position among its entry and every positive tick. */
  function Best(d: Direction, entry: real, ticks: seq<real>): real {
    if ticks == [] then entry
    else
      var before := Best(d, entry, ticks[..|ticks| - 1]);
      var price := ticks[|ticks| - 1];
      if price <= 0.0 then before
      else if d == Long then Max(before, price)
      else Min(before, price)
  }

  lemma {:induction false} BestIsTheExtremum(d: Direction, entry: real, ticks: seq<real>)
    ensures var best := Best(d, entry, ticks);
      && (best == entry || (best > 0.0 && best in ticks))
      && (if d == Long then best >= entry else best <= entry)
      && (forall i :: 0 <= i < |ticks| && ticks[i] > 0.0 ==>
            if d == Long then best >= ticks[i] else best <= ticks[i])
  {
    if ticks != [] {
      BestIsTheExtremum(d, entry, ticks[..|ticks| - 1]);
    }
  }

  /** The stop that a price history defines for a position entered at `entry`. */
  function HistoryStop(g: Guard, entry: real, ticks: seq<real>): Option<real> {
    Tighter(g.direction, g.stopPrice,
            if g.trailingPct == None then None
            else Some(TrailFrom(g.direction, g.trailingPct.value, Best(g.direction, entry, ticks))))
  }

  /** Tick `i` reaches the stop defined by the history up to and including it, or the target. */
  predicate Breaches(g: Guard, entry: real, ticks: seq<real>, i: nat)
    requires i < |ticks|
  {
    var stop := HistoryStop(g, entry, ticks[..i + 1]);
    && ticks[i] > 0.0
    && (|| (stop.Some? && AtOrBeyond(g.direction, stop.value, ticks[i]))
        || g.TargetHit(ticks[i]))
  }

  // ---- the monitor on a run of ticks ----------------------------------

  function AfterTicks(m: MonitorState, s: Symbol, ticks: seq<real>): MonitorState {
    if ticks == [] then m
    else Ticked(AfterTicks(m, s, ticks[..|ticks| - 1]), s, ticks[|ticks| - 1], 0).0
  }

  function FiredAt(m: MonitorState, s: Symbol, ticks: seq<real>, i: nat): Option<Order>
    requires i < |ticks|
  {
    Ticked(AfterTicks(m, s, ticks[..i]), s, ticks[i], 0).1
  }

  predicate ArmedAt(m: MonitorState, s: Symbol, entry: real) {
    && s in m.positions
    && m.positions[s].extreme == Some(entry)
    && !m.positions[s].exitPending
  }

  /** After any ticks the record holds the running best and whether a breach has occurred. */
  lemma {:induction false} RecordTellsHistory(m: MonitorState, s: Symbol, entry: real, ticks: seq<real>)
    requires ArmedAt(m, s, entry)
    ensures var g := m.positions[s]; var m' := AfterTicks(m, s, ticks);
      && s in m'.positions
      && m'.positions[s] == g.(extreme := Some(Best(g.direction, entry, ticks)),
                               exitPending := m'.positions[s].exitPending)
      && (m'.positions[s].exitPending <==> exists i :: 0 <= i < |ticks| && Breaches(g, entry, ticks, i))
  {
    if ticks != [] {
      var n := |ticks| - 1;
      var before := ticks[..n];
      RecordTellsHistory(m, s, entry, before);
      var g := m.positions[s];
      forall i | 0 <= i < n
        ensures Breaches(g, entry, ticks, i) <==> Breaches(g, entry, before, i)
      {
        assert ticks[..i + 1] == before[..i + 1];
      }
      assert ticks[..n + 1] == ticks;
      if ticks[n] > 0.0 {
        LastTick(g, AfterTicks(m, s, before).positions[s], entry, ticks);
      }
      var g1 := AfterTicks(m, s, ticks).positions[s];
      if g1.exitPending && !AfterTicks(m, s, before).positions[s].exitPending {
        assert Breaches(g, entry, ticks, n);
      }
      if exists i :: 0 <= i < n && Breaches(g, entry, before, i) {
        var i :| 0 <= i < n && Breaches(g, entry, before, i);
        assert Breaches(g, entry, ticks, i);
      }
    }
  }

  lemma LastTick(g: Guard, g1: Guard, entry: real, ticks: seq<real>)
    requires ticks != []
    requires g1 == g.(extreme := Some(Best(g.direction, entry, ticks[..|ticks| - 1])), exitPending := g1.exitPending)
    requires ticks[|ticks| - 1] > 0.0
    ensures var price := ticks[|ticks| - 1]; var seen := g1.Observed(price);
      && seen.extreme == Some(Best(g.direction, entry, ticks))
      && (seen.Breach(price).Some? <==> Breaches(g, entry, ticks, |ticks| - 1))
  {
    assert ticks[..|ticks| - 1 + 1] == ticks;
  }

  /** An armed position exits at exactly the first tick that breaches the stop or target
      its price history defines, and for its full size. */
  lemma FiresAtFirstBreach(m: MonitorState, s: Symbol, entry: real, ticks: seq<real>, i: nat)
    requires ArmedAt(m, s, entry) && i < |ticks|
    ensures var g := m.positions[s]; var fired := FiredAt(m, s, ticks, i);
      && (fired.Some? <==>
            Breaches(g, entry, ticks, i) && forall j :: 0 <= j < i ==> !Breaches(g, entry, ticks, j))
      && (fired.Some? ==> fired.value.reduceOnly && fired.value.size == g.size && fired.value.symbol == s
                          && (fired.value.side == Sell <==> g.direction == Long))
  {
    var g := m.positions[s];
    var before := ticks[..i];
    RecordTellsHistory(m, s, entry, before);
    forall j | 0 <= j < i
      ensures Breaches(g, entry, ticks, j) <==> Breaches(g, entry, before, j)
    {
      assert ticks[..j + 1] == before[..j + 1];
    }
    var upTo := ticks[..i + 1];
    assert upTo[..i] == before && upTo[..i + 1] == upTo;
    if ticks[i] > 0.0 {
      LastTick(g, AfterTicks(m, s, before).positions[s], entry, upTo);
    }
  }

  /** Tick `i` reaches the fixed stop, the trailing percentage off the best price so far, or the target. */
  predicate ReachesLevel(g: Guard, entry: real, ticks: seq<real>, i: nat)
    requires i < |ticks|
  {
    && ticks[i] > 0.0
    && (|| ReachesStop(g.direction, g.stopPrice, g.trailingPct, Best(g.direction, entry, ticks[..i + 1]), ticks[i])
        || ReachesTarget(g.direction, g.takeProfitPrice, ticks[i]))
  }

  lemma BreachesInPercent(g: Guard, entry: real, ticks: seq<real>, i: nat)
    requires i < |ticks|
    ensures Breaches(g, entry, ticks, i) <==> ReachesLevel(g, entry, ticks, i)
  {
    StopInPercent(g.direction, g.stopPrice, g.trailingPct, Best(g.direction, entry, ticks[..i + 1]), ticks[i]);
  }

  /** The exit in prices and percentages: an armed position is exited at exactly the first positive tick that
      reaches its fixed stop, its trailing percentage off the best of entry and positive ticks, or its target;
      a stop that is reached comes before the target, under the reason of the level that binds. */
  lemma FiresAtTheLevels(m: MonitorState, s: Symbol, entry: real, ticks: seq<real>, i: nat)
    requires ArmedAt(m, s, entry) && i < |ticks|
    ensures var g := m.positions[s]; var fired := FiredAt(m, s, ticks, i);
      var best := Best(g.direction, entry, ticks[..i + 1]);
      && (fired.Some? <==>
            ReachesLevel(g, entry, ticks, i) && forall j :: 0 <= j < i ==> !ReachesLevel(g, entry, ticks, j))
      && (fired.Some? ==>
            && fired.value.exitReason.Some?
            && if ReachesStop(g.direction, g.stopPrice, g.trailingPct, best, ticks[i])
               then exists level :: BindingStop(g.direction, g.stopPrice, g.trailingPct, best, level,
                                                fired.value.exitReason.value)
               else fired.value.exitReason.value == TakeProfit)
  {
    var g := m.positions[s];
    FiresAtFirstBreach(m, s, entry, ticks, i);
    forall j | 0 <= j <= i
      ensures Breaches(g, entry, ticks, j) <==> ReachesLevel(g, entry, ticks, j)
    {
      BreachesInPercent(g, entry, ticks, j);
    }
    if FiredAt(m, s, ticks, i).Some? {
      FiresForTheLevel(m, s, entry, ticks, i);
    }
  }

  lemma FiresForTheLevel(m: MonitorState, s: Symbol, entry: real, ticks: seq<real>, i: nat)
    requires ArmedAt(m, s, entry) && i < |ticks| && FiredAt(m, s, ticks, i).Some?
    ensures var g := m.positions[s]; var fired := FiredAt(m, s, ticks, i).value;
      var best := Best(g.direction, entry, ticks[..i + 1]);
      && fired.exitReason.Some?
      && if ReachesStop(g.direction, g.stopPrice, g.trailingPct, best, ticks[i])
         then exists level :: BindingStop(g.direction, g.stopPrice, g.trailingPct, best, level, fired.exitReason.value)
         else fired.exitReason.value == TakeProfit
  {
    var g := m.positions[s];
    var upTo := ticks[..i + 1];
    assert upTo[..i] == ticks[..i];
    RecordTellsHistory(m, s, entry, ticks[..i]);
    var g1 := AfterTicks(m, s, ticks[..i]).positions[s];
    LastTick(g, g1, entry, upTo);
    StopInPercent(g.direction, g.stopPrice, g.trailingPct, Best(g.direction, entry, upTo), ticks[i]);
  }

  /** Along any run of prices the history-defined stop only tightens, whenever the trail ratchets. */
  lemma {:induction false} HistoryStopTightens(g: Guard, entry: real, ticks: seq<real>, i: nat)
    requires ValidGuard(g) && Ratchets(g) && entry > 0.0 && i <= |ticks|
    ensures NoLooser(g.direction, HistoryStop(g, entry, ticks[..i]), HistoryStop(g, entry, ticks))
    decreases |ticks|
  {
    if i == |ticks| {
      assert ticks[..i] == ticks;
    } else {
      var before := ticks[..|ticks| - 1];
      HistoryStopTightens(g, entry, before, i);
      assert before[..i] == ticks[..i];
      BestIsTheExtremum(g.direction, entry, before);
      var e, e' := Best(g.direction, entry, before), Best(g.direction, entry, ticks);
      if g.trailingPct.Some? {
        TrailIsMonotone(g.direction, g.trailingPct.value, e, e');
      }
    }
  }

  // ---- the monitor on every kind of event -----------------------------

  datatype Event =
    | OrderSeen(order: Order)
    | FillSeen(fill: Fill)
    | SnapshotSeen(live: map<Symbol, Position>)
    | TickSeen(symbol: Symbol, price: real, freshId: nat)

  function Stepped(m: MonitorState, e: Event, trail: Option<real>): (MonitorState, Option<Order>) {
    match e
    case OrderSeen(order) => (Remembered(m, order), None)
    case FillSeen(fill) => (AppliedFill(m, fill, trail), None)
    case SnapshotSeen(live) => (Reconciled(m, live, trail), None)
    case TickSeen(symbol, price, id) => Ticked(m, symbol, price, id)
  }

  function After(m: MonitorState, events: seq<Event>, trail: Option<real>): MonitorState {
    if events == [] then m
    else Stepped(After(m, events[..|events| - 1], trail), events[|events| - 1], trail).0
  }

  predicate ExitsAt(m: MonitorState, events: seq<Event>, i: nat, s: Symbol, trail: Option<real>)
    requires i < |events|
  {
    var out := Stepped(After(m, events[..i], trail), events[i], trail).1;
    out.Some? && out.value.symbol == s
  }

  /** The two ways a fired exit is forgotten: a fill against the position, or a snapshot without it. */
  predicate Releases(m: MonitorState, e: Event, s: Symbol) {
    && s in m.positions
    && match e
       case FillSeen(fill) => fill.symbol == s && fill.Direction() != m.positions[s].direction
       case SnapshotSeen(live) => s !in live
       case _ => false
  }

  lemma PendingUntilReleased(m: MonitorState, e: Event, s: Symbol, trail: Option<real>)
    requires PendingFor(m, s) && !Releases(m, e, s)
    ensures PendingFor(Stepped(m, e, trail).0, s)
    ensures Stepped(m, e, trail).1.Some? ==> Stepped(m, e, trail).1.value.symbol != s
  {
  }

  lemma {:induction false} PendingOverRun(m: MonitorState, events: seq<Event>, i: nat, s: Symbol, trail: Option<real>)
    requires i <= |events| && PendingFor(After(m, events[..i], trail), s)
    requires forall k :: i <= k < |events| ==> !Releases(After(m, events[..k], trail), events[k], s)
    ensures PendingFor(After(m, events, trail), s)
    decreases |events|
  {
    if i == |events| {
      assert events[..i] == events;
    } else {
      var n := |events| - 1;
      var before := events[..n];
      assert before[..i] == events[..i];
      forall k | i <= k < n
        ensures !Releases(After(m, before[..k], trail), before[k], s)
      {
        assert before[..k] == events[..k];
      }
      PendingOverRun(m, before, i, s, trail);
      PendingUntilReleased(After(m, before, trail), events[n], s, trail);
    }
  }

  /** Between two exits for one symbol lies a fill against the position
      or a reconciliation that dropped it: no breach is acted on twice. */
  lemma ExitsAreSeparated(m: MonitorState, events: seq<Event>, i: nat, j: nat, s: Symbol, trail: Option<real>)
    requires i < j < |events|
    requires ExitsAt(m, events, i, s, trail) && ExitsAt(m, events, j, s, trail)
    ensures exists k :: i < k < j && Releases(After(m, events[..k], trail), events[k], s)
  {
    if forall k :: i < k < j ==> !Releases(After(m, events[..k], trail), events[k], s) {
      var upTo := events[..j];
      assert upTo[..i + 1] == events[..i + 1];
      assert events[..i + 1][..i] == events[..i];
      forall k | i + 1 <= k < j
        ensures !Releases(After(m, upTo[..k], trail), upTo[k], s)
      {
        assert upTo[..k] == events[..k];
      }
      PendingOverRun(m, upTo, i + 1, s, trail);
      PendingUntilReleased(After(m, upTo, trail), events[j], s, trail);
    }
  }
}
