/** The backtest: protective exits evaluated on bars, and the loop that opens and closes trades. */
module Replay {
  import opened Schemas
  import M = Monitor

  // ---- one open trade -------------------------------------------------

  /** A position the replay is holding. */
  datatype Trade = Trade(
    direction: Direction,
    confidence: real,
    entryTime: int,
    entryPrice: real,
    stopPrice: Option<real>,
    takeProfitPrice: Option<real>,
    trailingPct: Option<real>,
    extreme: real,
    entryCost: real,
    bars: nat)
  {
    function Observed(bar: Candle): Trade {
      this.(extreme := if direction == Long then Max(extreme, bar.high) else Min(extreme, bar.low))
    }

    function TrailingStop(): Option<real> {
      if trailingPct == None then None else Some(M.TrailFrom(direction, trailingPct.value, extreme))
    }

    function EffectiveStop(): Option<real> {
      M.Tighter(direction, stopPrice, TrailingStop())
    }

    /** The bar's worst price for the trade: its low for a long, its high for a short. */
    function Worst(bar: Candle): real {
      if direction == Long then bar.low else bar.high
    }

    /** The bar's best price for the trade. */
    function Best(bar: Candle): real {
      if direction == Long then bar.high else bar.low
    }

    function StopReason(): ExitReason {
      if TrailingStop().Some?
         && (stopPrice == None || M.StrictlyTighter(direction, TrailingStop().value, stopPrice.value))
      then ExitReason.TrailingStop
      else ExitReason.StopLoss
    }

    /** The exit this bar triggers with its price; the stop is evaluated first. */
    function ExitOn(bar: Candle): Option<(ExitReason, real)> {
      if EffectiveStop().Some? && M.AtOrBeyond(direction, EffectiveStop().value, Worst(bar))
      then Some((StopReason(), EffectiveStop().value))
      else if takeProfitPrice.Some? && M.AtTarget(direction, takeProfitPrice.value, Best(bar))
      then Some((TakeProfit, takeProfitPrice.value))
      else None
    }
  }

  /** One completed round trip. */
  datatype Completed = Completed(
    direction: Direction,
    confidence: real,
    entryTime: int,
    entryPrice: real,
    exitTime: int,
    exitPrice: real,
    reason: ExitReason,
    grossPnl: real,
    costs: real,
    barsHeld: nat,
    forced: bool)

  // ---- configuration and inputs ---------------------------------------

  datatype View = View(direction: Direction, confidence: real, stop: Option<real>, takeProfit: Option<real>)

  /** What the analyst sees: the driving window, and the visible window of each other interval that has one. */
  datatype History = History(driving: seq<Candle>, others: seq<(string, seq<Candle>)>)

  /** `analyst` is any deterministic view of a history. `warmup` is the first decision bar, `windowBars` the
      length of the visible window. */
  datatype Engine = Engine(
    warmup: nat,
    windowBars: nat,
    maxBarsHeld: Option<nat>,
    minConfidence: real,
    trailingPct: Option<real>,
    size: real,
    costBps: real,
    analyst: History -> Option<View>)

  function VisibleAt(series: seq<Candle>, time: int): seq<Candle> {
    if series == [] then []
    else if series[0].closeTime <= time then [series[0]] + VisibleAt(series[1..], time)
    else VisibleAt(series[1..], time)
  }

  function OthersAt(eng: Engine, others: seq<(string, seq<Candle>)>, time: int): seq<(string, seq<Candle>)> {
    if others == [] then []
    else
      var visible := VisibleAt(others[0].1, time);
      (if visible == [] then [] else [(others[0].0, LastOf(visible, eng.windowBars))])
      + OthersAt(eng, others[1..], time)
  }

  function HistoryAt(eng: Engine, driver: seq<Candle>, others: seq<(string, seq<Candle>)>, index: nat): History
    requires index < |driver|
  {
    var lower := if index + 1 >= eng.windowBars then index + 1 - eng.windowBars else 0;
    History(driver[lower..index + 1], OthersAt(eng, others, driver[index].closeTime))
  }

  function CostFor(eng: Engine, price: real): real {
    price * eng.size * eng.costBps / 10000.0
  }

  function ClosedTrade(eng: Engine, t: Trade, price: real, time: int, reason: ExitReason, forced: bool): Completed {
    Completed(t.direction, t.confidence, t.entryTime, t.entryPrice, time, price, reason,
              (price - t.entryPrice) * eng.size * Sign(t.direction), t.entryCost + CostFor(eng, price),
              t.bars, forced)
  }

  // ---- the run as a fold over bars ------------------------------------

  datatype State = State(trades: seq<Completed>, open: Option<Trade>, evaluated: nat, actionable: nat,
                         confidences: seq<real>)

  const START := State([], None, 0, 0, [])

  /** Manage an open trade against one bar: exit, forced close at the holding limit, or keep it. */
  function Managed(eng: Engine, st: State, bar: Candle): State {
    if st.open == None then st
    else
      var t := st.open.value.(bars := st.open.value.bars + 1).Observed(bar);
      var hit := t.ExitOn(bar);
      if hit.Some? then
        st.(trades := st.trades + [ClosedTrade(eng, t, hit.value.1, bar.closeTime, hit.value.0, false)], open := None)
      else if eng.maxBarsHeld.Some? && t.bars >= eng.maxBarsHeld.value then
        st.(trades := st.trades + [ClosedTrade(eng, t, bar.close, bar.closeTime, Manual, true)], open := None)
      else st.(open := Some(t))
  }

  function Opened(eng: Engine, v: View, bar: Candle): Trade {
    Trade(v.direction, v.confidence, bar.closeTime, bar.close, v.stop, v.takeProfit, eng.trailingPct,
          bar.close, CostFor(eng, bar.close), 0)
  }

  predicate Actionable(eng: Engine, v: View) {
    v.direction != Flat && v.confidence >= eng.minConfidence
  }

  /** Ask for a view when flat, and open a trade if it is actionable. */
  function Considered(eng: Engine, st: State, history: History, bar: Candle): State {
    if st.open.Some? then st
    else
      var view := eng.analyst(history);
      if view == None then st
      else
        var seen := st.(evaluated := st.evaluated + 1, confidences := st.confidences + [view.value.confidence]);
        if Actionable(eng, view.value)
        then seen.(actionable := seen.actionable + 1, open := Some(Opened(eng, view.value, bar)))
        else seen
  }

  /** The state after bars warmup .. upTo - 1. */
  function After(eng: Engine, driver: seq<Candle>, others: seq<(string, seq<Candle>)>, upTo: nat): State
    requires upTo <= |driver|
  {
    if upTo <= eng.warmup then START
    else
      var st := Managed(eng, After(eng, driver, others, upTo - 1), driver[upTo - 1]);
      Considered(eng, st, HistoryAt(eng, driver, others, upTo - 1), driver[upTo - 1])
  }

  /** An unresolved trade is closed at the final close and flagged. */
  function Finished(eng: Engine, st: State, last: Candle): State {
    if st.open == None then st
    else st.(trades := st.trades + [ClosedTrade(eng, st.open.value, last.close, last.closeTime, Manual, true)],
             open := None)
  }

  // ---- the mutable engine ---------------------------------------------

  class OpenTrade {
    var extreme: real
    var bars: nat
    const start: Trade

    function Value(): Trade
      reads this
    {
      start.(extreme := extreme, bars := bars)
    }

    constructor (t: Trade)
      ensures Value() == t
    {
      start := t;
      extreme, bars := t.extreme, t.bars;
    }

    method Observe(bar: Candle)
      modifies this`extreme
      ensures Value() == old(Value()).Observed(bar)
    {
      if start.direction == Long {
        extreme := Max(extreme, bar.high);
      } else {
        extreme := Min(extreme, bar.low);
      }
    }
  }

  /** One bar of an open trade: updated in place, and closed by a level or at the holding limit. */
  method Manage(eng: Engine, open: OpenTrade, trades: seq<Completed>, bar: Candle, ghost st: State)
    returns (trades': seq<Completed>, over: bool)
    requires st.trades == trades && st.open == Some(open.Value())
    modifies open
    ensures Managed(eng, st, bar) == st.(trades := trades', open := if over then None else Some(open.Value()))
  {
    trades', over := trades, true;
    open.bars := open.bars + 1;
    open.Observe(bar);
    var hit := open.Value().ExitOn(bar);
    if hit.Some? {
      trades' := trades' + [ClosedTrade(eng, open.Value(), hit.value.1, bar.closeTime, hit.value.0, false)];
    } else if eng.maxBarsHeld.Some? && open.bars >= eng.maxBarsHeld.value {
      trades' := trades' + [ClosedTrade(eng, open.Value(), bar.close, bar.closeTime, Manual, true)];
    } else {
      over := false;
    }
  }

  lemma AfterNext(eng: Engine, driver: seq<Candle>, others: seq<(string, seq<Candle>)>, index: nat)
    requires eng.warmup <= index < |driver|
    ensures After(eng, driver, others, index + 1)
            == Considered(eng, Managed(eng, After(eng, driver, others, index), driver[index]),
                          HistoryAt(eng, driver, others, index), driver[index])
  {
  }

  /** Replays one symbol; None when the driving series is no longer than the warm-up. */
  method Run(eng: Engine, driver: seq<Candle>, others: seq<(string, seq<Candle>)>) returns (result: Option<State>)
    ensures result == if |driver| <= eng.warmup then None
                      else Some(Finished(eng, After(eng, driver, others, |driver|), driver[|driver| - 1]))
  {
    if |driver| <= eng.warmup {
      return None;
    }
    var trades: seq<Completed> := [];
    var evaluated, actionable: nat := 0, 0;
    var confidences: seq<real> := [];
    var open: OpenTrade? := null;
    var index := eng.warmup;
    while index < |driver|
      invariant eng.warmup <= index <= |driver|
      invariant open != null ==> fresh(open)
      invariant After(eng, driver, others, index)
                == State(trades, if open == null then None else Some(open.Value()), evaluated, actionable, confidences)
    {
      var bar := driver[index];
      ghost var before := After(eng, driver, others, index);
      if open != null {
        var over;
        trades, over := Manage(eng, open, trades, bar, before);
        if over {
          open := null;
        }
      }
      assert Managed(eng, before, bar)
             == State(trades, if open == null then None else Some(open.Value()), evaluated, actionable, confidences);
      AfterNext(eng, driver, others, index);
      index := index + 1;
      if open != null {
        continue;
      }
      var view := eng.analyst(HistoryAt(eng, driver, others, index - 1));
      if view == None {
        continue;
      }
      evaluated := evaluated + 1;
      confidences := confidences + [view.value.confidence];
      if !Actionable(eng, view.value) {
        continue;
      }
      actionable := actionable + 1;
      open := new OpenTrade(Opened(eng, view.value, bar));
    }
    if open != null {
      var final := driver[|driver| - 1];
      trades := trades + [ClosedTrade(eng, open.Value(), final.close, final.closeTime, Manual, true)];
    }
    result := Some(State(trades, None, evaluated, actionable, confidences));
  }

  // ---- structure of every run -----------------------------------------

  /** The bars between which a trade was held. */
  datatype Span = Span(entry: nat, exit: nat)

  /** Entered at the close of one bar, ended in another, with costs charged on both sides. */
  predicate Spans(eng: Engine, driver: seq<Candle>, trade: Completed, s: Span) {
    && s.entry <= s.exit < |driver|
    && trade.costs == CostFor(eng, trade.entryPrice) + CostFor(eng, trade.exitPrice)
    && trade.entryTime == driver[s.entry].closeTime && trade.entryPrice == driver[s.entry].close
    && trade.exitTime == driver[s.exit].closeTime
    && trade.barsHeld == s.exit - s.entry
  }

  predicate Chronological(eng: Engine, spans: seq<Span>, upTo: nat) {
    && (forall i :: 0 <= i < |spans| ==> eng.warmup <= spans[i].entry <= spans[i].exit < upTo)
    && (forall i, j :: 0 <= i < j < |spans| ==> spans[i].exit <= spans[j].entry)
  }

  /** The holding limit as it takes effect: a trade lives through at least one bar. */
  predicate WithinHoldingLimit(eng: Engine, bars: nat) {
    eng.maxBarsHeld.Some? ==> bars <= eng.maxBarsHeld.value || bars <= 1
  }

  /** The completed trades of a state, each with the bars it was held between, and the open one last. */
  ghost predicate Structured(eng: Engine, driver: seq<Candle>, upTo: nat, st: State, spans: seq<Span>, entry: nat) {
    && upTo <= |driver|
    && |spans| == |st.trades|
    && Chronological(eng, spans, upTo)
    && (forall i :: 0 <= i < |spans| ==>
          && Spans(eng, driver, st.trades[i], spans[i])
          && spans[i].entry < spans[i].exit
          && WithinHoldingLimit(eng, st.trades[i].barsHeld))
    && st.actionable == |st.trades| + (if st.open.Some? then 1 else 0)
    && (st.open.Some? ==>
          && eng.warmup <= entry < upTo
          && (forall i :: 0 <= i < |spans| ==> spans[i].exit <= entry)
          && st.open.value.entryTime == driver[entry].closeTime
          && st.open.value.entryPrice == driver[entry].close
          && st.open.value.entryCost == CostFor(eng, st.open.value.entryPrice)
          && st.open.value.bars == upTo - 1 - entry
          && (eng.maxBarsHeld.Some? ==> st.open.value.bars == 0 || st.open.value.bars < eng.maxBarsHeld.value))
  }

  lemma ManagedKeepsStructure(eng: Engine, driver: seq<Candle>, upTo: nat, st: State, spans: seq<Span>, entry: nat)
    returns (spans': seq<Span>)
    requires upTo < |driver| && Structured(eng, driver, upTo, st, spans, entry)
    ensures var st' := Managed(eng, st, driver[upTo]);
      && spans' == (if st.open.Some? && st'.open == None then spans + [Span(entry, upTo)] else spans)
      && Structured(eng, driver, upTo + 1, st', spans', entry)
  {
    var st' := Managed(eng, st, driver[upTo]);
    if st.open.Some? && st'.open == None {
      spans' := spans + [Span(entry, upTo)];
    } else {
      spans' := spans;
    }
  }

  lemma ConsideredKeepsStructure(eng: Engine, driver: seq<Candle>, others: seq<(string, seq<Candle>)>, upTo: nat,
                                 st: State, spans: seq<Span>, entry: nat) returns (entry': nat)
    requires upTo < |driver| && eng.warmup <= upTo && Structured(eng, driver, upTo + 1, st, spans, entry)
    ensures Structured(eng, driver, upTo + 1,
                       Considered(eng, st, HistoryAt(eng, driver, others, upTo), driver[upTo]), spans, entry')
    ensures entry' == if st.open.Some? then entry else upTo
  {
    entry' := if st.open.Some? then entry else upTo;
  }

  lemma {:induction false} StructureOf(eng: Engine, driver: seq<Candle>, others: seq<(string, seq<Candle>)>, upTo: nat)
    returns (spans: seq<Span>, entry: nat)
    requires upTo <= |driver|
    ensures Structured(eng, driver, upTo, After(eng, driver, others, upTo), spans, entry)
    decreases upTo
  {
    if upTo <= eng.warmup {
      spans, entry := [], 0;
    } else {
      spans, entry := StructureOf(eng, driver, others, upTo - 1);
      var st := After(eng, driver, others, upTo - 1);
      spans := ManagedKeepsStructure(eng, driver, upTo - 1, st, spans, entry);
      entry := ConsideredKeepsStructure(eng, driver, others, upTo - 1, Managed(eng, st, driver[upTo - 1]), spans, entry);
    }
  }

  /** A result whose trades occupy chronological spans. */
  ghost predicate WellSpanned(eng: Engine, driver: seq<Candle>, trades: seq<Completed>, spans: seq<Span>) {
    && |spans| == |trades|
    && Chronological(eng, spans, |driver|)
    && forall i :: 0 <= i < |spans| ==>
         Spans(eng, driver, trades[i], spans[i]) && WithinHoldingLimit(eng, trades[i].barsHeld)
  }

  lemma FinishKeepsStructure(eng: Engine, driver: seq<Candle>, st: State, spans: seq<Span>, entry: nat)
    returns (all: seq<Span>)
    requires driver != [] && Structured(eng, driver, |driver|, st, spans, entry)
    ensures WellSpanned(eng, driver, Finished(eng, st, driver[|driver| - 1]).trades, all)
    ensures all == if st.open.Some? then spans + [Span(entry, |driver| - 1)] else spans
  {
    if st.open.Some? {
      var last := Span(entry, |driver| - 1);
      ForcedCloseSpans(eng, driver, st, spans, entry);
      all := spans + [last];
    } else {
      all := spans;
    }
  }

  lemma ForcedCloseSpans(eng: Engine, driver: seq<Candle>, st: State, spans: seq<Span>, entry: nat)
    requires driver != [] && st.open.Some? && Structured(eng, driver, |driver|, st, spans, entry)
    ensures var final := driver[|driver| - 1];
      var t := ClosedTrade(eng, st.open.value, final.close, final.closeTime, Manual, true);
      Spans(eng, driver, t, Span(entry, |driver| - 1)) && WithinHoldingLimit(eng, t.barsHeld)
  {
  }

  /** Main structure result: each actionable view yields exactly one trade; the trades occupy chronological
      bar spans, each entered no earlier than the previous exit; bars held is exit bar minus entry bar and
      within the holding limit. */
  lemma RunIsStructured(eng: Engine, driver: seq<Candle>, others: seq<(string, seq<Candle>)>)
    requires eng.warmup < |driver|
    ensures var st := Finished(eng, After(eng, driver, others, |driver|), driver[|driver| - 1]);
      && |st.trades| == st.actionable
      && exists spans :: WellSpanned(eng, driver, st.trades, spans)
  {
    var st := After(eng, driver, others, |driver|);
    var spans, entry := StructureOf(eng, driver, others, |driver|);
    var all := FinishKeepsStructure(eng, driver, st, spans, entry);
  }

  // ---- no look-ahead --------------------------------------------------

  lemma {:induction false} VisibleIsPast(series: seq<Candle>, time: int)
    ensures forall c :: c in VisibleAt(series, time) <==> c in series && c.closeTime <= time
  {
    if series != [] {
      VisibleIsPast(series[1..], time);
      assert series == [series[0]] + series[1..];
    }
  }

  /** On no interval does the analyst see a candle that closes after the deciding bar. */
  lemma {:induction false} OthersArePast(eng: Engine, others: seq<(string, seq<Candle>)>, time: int)
    ensures forall i, c :: 0 <= i < |OthersAt(eng, others, time)| && c in OthersAt(eng, others, time)[i].1 ==>
              c.closeTime <= time
  {
    if others != [] {
      OthersArePast(eng, others[1..], time);
      VisibleIsPast(others[0].1, time);
    }
  }

  /** The driving window the analyst sees: the last `windowBars` bars up to and including the deciding one, or all. */
  lemma WindowEndsAtBar(eng: Engine, driver: seq<Candle>, others: seq<(string, seq<Candle>)>, index: nat)
    requires index < |driver|
    ensures var seen := HistoryAt(eng, driver, others, index).driving;
      && |seen| == (if eng.windowBars <= index + 1 then eng.windowBars else index + 1)
      && forall k :: 0 <= k < |seen| ==> seen[k] == driver[index + 1 - |seen| + k]
  {
  }

  // ---- prefixes -------------------------------------------------------

  lemma {:induction false} PrefixRunsAlike(eng: Engine, driver: seq<Candle>, others: seq<(string, seq<Candle>)>,
                                           n: nat, upTo: nat)
    requires upTo <= n <= |driver|
    ensures After(eng, driver[..n], others, upTo) == After(eng, driver, others, upTo)
    decreases upTo
  {
    if upTo > eng.warmup {
      PrefixRunsAlike(eng, driver, others, n, upTo - 1);
      var index := upTo - 1;
      var lower := if index + 1 >= eng.windowBars then index + 1 - eng.windowBars else 0;
      assert driver[..n][lower..index + 1] == driver[lower..index + 1];
    }
  }

  lemma StepOnlyAdds(eng: Engine, driver: seq<Candle>, others: seq<(string, seq<Candle>)>, upTo: nat)
    requires 0 < upTo <= |driver|
    ensures After(eng, driver, others, upTo - 1).trades <= After(eng, driver, others, upTo).trades
  {
  }

  lemma {:induction false} TradesOnlyGrow(eng: Engine, driver: seq<Candle>, others: seq<(string, seq<Candle>)>,
                                          n: nat, m: nat)
    requires n <= m <= |driver|
    ensures After(eng, driver, others, n).trades <= After(eng, driver, others, m).trades
    decreases m
  {
    if n < m {
      TradesOnlyGrow(eng, driver, others, n, m - 1);
      StepOnlyAdds(eng, driver, others, m);
    }
  }

  /** Replaying a prefix gives the same trades: all of them are among the full replay's, in the same
      places, except the one it may have to force closed at its own last bar. */
  lemma PrefixTradesAgree(eng: Engine, driver: seq<Candle>, others: seq<(string, seq<Candle>)>, n: nat)
    requires eng.warmup < n <= |driver|
    ensures var short := Finished(eng, After(eng, driver[..n], others, n), driver[n - 1]);
      var full := Finished(eng, After(eng, driver, others, |driver|), driver[|driver| - 1]);
      var resolved := After(eng, driver, others, n).trades;
      && resolved <= full.trades
      && (short.trades == resolved
          || exists t :: short.trades == resolved + [t] && t.forced && t.exitTime == driver[n - 1].closeTime)
  {
    PrefixRunsAlike(eng, driver, others, n, n);
    TradesOnlyGrow(eng, driver, others, n, |driver|);
    var st := After(eng, driver, others, n);
    if st.open.Some? {
      var t := ClosedTrade(eng, st.open.value, driver[n - 1].close, driver[n - 1].closeTime, Manual, true);
      assert Finished(eng, st, driver[n - 1]).trades == st.trades + [t];
    }
  }
}
