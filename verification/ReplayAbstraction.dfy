/** The replay's bar-by-bar exits as a sound and tight abstraction of the live monitor's ticks. */
module ReplayAbstraction {
  import opened Schemas
  import M = Monitor
  import MR = MonitorRuns
  import P = Replay

  // ---- the monitor on the ticks of one bar, and on many bars ----------

  /** One guarded position over a run of ticks, up to and including its first exit. */
  function Watched(g: M.Guard, ticks: seq<real>): (M.Guard, Option<ExitReason>) {
    if ticks == [] then (g, None)
    else
      var (seen, exit) := Watched(g, ticks[..|ticks| - 1]);
      var price := ticks[|ticks| - 1];
      if exit.Some? || price <= 0.0 then (seen, exit)
      else (seen.Observed(price), seen.Observed(price).Breach(price))
  }

  /** The bar in which the monitor exits, and why. */
  function MonitorExit(g: M.Guard, paths: seq<seq<real>>): (M.Guard, Option<(nat, ExitReason)>) {
    if paths == [] then (g, None)
    else
      var n := |paths| - 1;
      var (seen, exit) := MonitorExit(g, paths[..n]);
      if exit.Some? then (seen, exit)
      else
        var (later, reason) := Watched(seen, paths[n]);
        (later, if reason.Some? then Some((n, reason.value)) else None)
  }

  /** The bar in which the replay exits, and why; reaching the holding limit is a manual exit. */
  function ReplayExit(eng: P.Engine, t: P.Trade, bars: seq<Candle>): (P.Trade, Option<(nat, ExitReason)>) {
    if bars == [] then (t, None)
    else
      var n := |bars| - 1;
      var (held, exit) := ReplayExit(eng, t, bars[..n]);
      if exit.Some? then (held, exit)
      else
        var now := held.(bars := held.bars + 1).Observed(bars[n]);
        if now.ExitOn(bars[n]).Some? then (now, Some((n, now.ExitOn(bars[n]).value.0)))
        else if eng.maxBarsHeld.Some? && now.bars >= eng.maxBarsHeld.value then (now, Some((n, Manual)))
        else (now, None)
  }

  /** Bar `index` adds one trade to `trades`, closed for this reason. */
  predicate ClosesAfter(eng: P.Engine, driver: seq<Candle>, others: seq<(string, seq<Candle>)>,
                        trades: seq<P.Completed>, index: nat, reason: ExitReason)
    requires index < |driver|
  {
    AddsTrade(trades, P.After(eng, driver, others, index + 1).trades, reason)
  }

  /** One pass of the loop against one more bar of an open trade. */
  lemma OneMoreBar(eng: P.Engine, st: P.State, history: P.History, t: P.Trade, bars: seq<Candle>)
    requires bars != [] && ReplayExit(eng, t, bars[..|bars| - 1]).1 == None
    requires st.open == Some(ReplayExit(eng, t, bars[..|bars| - 1]).0)
    ensures var bar := bars[|bars| - 1]; var st' := P.Considered(eng, P.Managed(eng, st, bar), history, bar);
      var (now, exit) := ReplayExit(eng, t, bars);
      && (exit == None ==> st'.open == Some(now) && st'.trades == st.trades)
      && (exit.Some? ==> exit.value.0 == |bars| - 1 && AddsTrade(st.trades, st'.trades, exit.value.1))
  {
  }

  predicate AddsTrade(before: seq<P.Completed>, after: seq<P.Completed>, reason: ExitReason) {
    |after| == |before| + 1 && before <= after && after[|before|].reason == reason
  }

  /** How the loop stands `k` bars after bar `n`, when a trade was open: with the trade as given, or having closed
      it in the bar and for the reason given. */
  predicate RunsTo(eng: P.Engine, driver: seq<Candle>, others: seq<(string, seq<Candle>)>, n: nat, k: nat,
                   result: (P.Trade, Option<(nat, ExitReason)>))
    requires n + k <= |driver|
  {
    var trades, st := P.After(eng, driver, others, n).trades, P.After(eng, driver, others, n + k);
    if result.1 == None then st.open == Some(result.0) && st.trades == trades
    else result.1.value.0 < k && ClosesAfter(eng, driver, others, trades, n + result.1.value.0, result.1.value.1)
  }

  lemma RunsOn(eng: P.Engine, driver: seq<Candle>, others: seq<(string, seq<Candle>)>, n: nat, k: nat,
               result: (P.Trade, Option<(nat, ExitReason)>))
    requires n + k < |driver| && RunsTo(eng, driver, others, n, k, result) && result.1.Some?
    ensures RunsTo(eng, driver, others, n, k + 1, result)
  {
  }

  lemma RunsOneBarMore(eng: P.Engine, driver: seq<Candle>, others: seq<(string, seq<Candle>)>, n: nat, t: P.Trade,
                       bars: seq<Candle>)
    requires bars != [] && n + |bars| <= |driver| && bars[|bars| - 1] == driver[n + |bars| - 1]
    requires RunsTo(eng, driver, others, n, |bars| - 1, ReplayExit(eng, t, bars[..|bars| - 1]))
    requires ReplayExit(eng, t, bars[..|bars| - 1]).1 == None
    ensures RunsTo(eng, driver, others, n, |bars|, ReplayExit(eng, t, bars))
  {
    var m := n + |bars|;
    var before, history := P.After(eng, driver, others, m - 1), P.HistoryAt(eng, driver, others, m - 1);
    var after := P.Considered(eng, P.Managed(eng, before, driver[m - 1]), history, driver[m - 1]);
    LoopStep(eng, driver, others, m, after);
    OneMoreBar(eng, before, history, t, bars);
  }

  lemma ExitPersists(eng: P.Engine, t: P.Trade, bars: seq<Candle>)
    requires bars != [] && ReplayExit(eng, t, bars[..|bars| - 1]).1.Some?
    ensures ReplayExit(eng, t, bars) == ReplayExit(eng, t, bars[..|bars| - 1])
  {
  }

  lemma LoopStep(eng: P.Engine, driver: seq<Candle>, others: seq<(string, seq<Candle>)>, m: nat, st: P.State)
    requires 0 < m <= |driver| && P.After(eng, driver, others, m - 1).open.Some?
    requires st == P.Considered(eng, P.Managed(eng, P.After(eng, driver, others, m - 1), driver[m - 1]),
                                P.HistoryAt(eng, driver, others, m - 1), driver[m - 1])
    ensures P.After(eng, driver, others, m) == st
  {
  }

  /** From the bar after its entry, the run loop keeps an open trade exactly as long as `ReplayExit` does, and
      closes it in the same bar for the same reason. */
  lemma {:induction false} ReplayExitIsTheRuns(eng: P.Engine, driver: seq<Candle>, others: seq<(string, seq<Candle>)>,
                                               n: nat, t: P.Trade, bars: seq<Candle>)
    requires n + |bars| <= |driver| && bars == driver[n..n + |bars|]
    requires P.After(eng, driver, others, n).open == Some(t)
    ensures RunsTo(eng, driver, others, n, |bars|, ReplayExit(eng, t, bars))
    decreases |bars|
  {
    if bars != [] {
      var front := bars[..|bars| - 1];
      ReplayExitIsTheRuns(eng, driver, others, n, t, front);
      if ReplayExit(eng, t, front).1.Some? {
        ExitPersists(eng, t, bars);
        RunsOn(eng, driver, others, n, |front|, ReplayExit(eng, t, front));
      } else {
        RunsOneBarMore(eng, driver, others, n, t, bars);
      }
    }
  }

  /** The guard's run is the monitor's: an order fires on these ticks exactly when the guard exits. */
  lemma {:induction false} WatchedIsTheMonitors(m: M.MonitorState, s: Symbol, ticks: seq<real>)
    requires s in m.positions && !m.positions[s].exitPending
    ensures var m' := MR.AfterTicks(m, s, ticks); var (seen, exit) := Watched(m.positions[s], ticks);
      && s in m'.positions
      && (m'.positions[s].exitPending <==> exit.Some?)
      && (exit == None ==> m'.positions[s] == seen)
      && !seen.exitPending
  {
    if ticks != [] {
      WatchedIsTheMonitors(m, s, ticks[..|ticks| - 1]);
    }
  }

  // ---- how the two states are related ---------------------------------

  predicate SameLevels(t: P.Trade, g: M.Guard) {
    && t.direction == g.direction && t.direction != Flat
    && t.stopPrice == g.stopPrice && t.takeProfitPrice == g.takeProfitPrice && t.trailingPct == g.trailingPct
    && (t.trailingPct.Some? && t.direction == Short ==> M.Trails(Short, t.trailingPct.value))
    && g.extreme.Some? && g.extreme.value > 0.0
  }

  /** The replay has seen at least as favourable an extreme as the monitor. */
  predicate Dominates(t: P.Trade, g: M.Guard) {
    && SameLevels(t, g)
    && (if t.direction == Long then t.extreme >= g.extreme.value else t.extreme <= g.extreme.value)
  }

  predicate Inside(bar: Candle, ticks: seq<real>) {
    forall i :: 0 <= i < |ticks| ==> bar.low <= ticks[i] <= bar.high
  }

  predicate PathsInside(bars: seq<Candle>, paths: seq<seq<real>>) {
    |paths| == |bars| && forall i :: 0 <= i < |bars| ==> Inside(bars[i], paths[i])
  }

  /** A positive tick that hits the monitor's stop also hits the replay's, whose trail is never looser
      where it matters: above 100% a long's trail is negative and only the fixed stop can be hit. */
  lemma StopHitIsShared(t: P.Trade, g: M.Guard, price: real)
    requires Dominates(t, g) && price > 0.0 && g.StopHit(price)
    ensures t.EffectiveStop().Some? && M.AtOrBeyond(t.direction, t.EffectiveStop().value, price)
  {
    if t.trailingPct.Some? {
      var pct := t.trailingPct.value;
      if t.direction == Long && pct > 100.0 {
        NegativeTrail(pct, g.extreme.value);
      } else {
        M.TrailIsMonotone(t.direction, pct, g.extreme.value, t.extreme);
      }
    }
  }

  lemma NegativeTrail(pct: real, extreme: real)
    requires pct > 100.0 && extreme > 0.0
    ensures M.TrailFrom(Long, pct, extreme) < 0.0
  {
    var slope := 1.0 - pct / 100.0;
    assert slope < 0.0;
    assert extreme * slope < 0.0;
  }

  /** Within one bar: if the replay does not stop out, no path through the bar stops the monitor out;
      if the replay does not exit at all, neither does the monitor. */
  lemma {:induction false} BarBounds(t: P.Trade, g: M.Guard, bar: Candle, ticks: seq<real>)
    requires Dominates(t, g) && Inside(bar, ticks)
    requires t == t.Observed(bar)
    requires t.ExitOn(bar) == None || t.ExitOn(bar).value.0 == TakeProfit
    ensures var (seen, exit) := Watched(g, ticks);
      && Dominates(t, seen)
      && (exit == None || exit == Some(TakeProfit))
      && (t.ExitOn(bar) == None ==> exit == None)
  {
    if ticks != [] {
      var before := ticks[..|ticks| - 1];
      BarBounds(t, g, bar, before);
      var (seen, exit) := Watched(g, before);
      var price := ticks[|ticks| - 1];
      if exit == None && price > 0.0 {
        var now := seen.Observed(price);
        assert Dominates(t, now);
        if now.StopHit(price) {
          StopHitIsShared(t, now, price);
          assert false;
        }
      }
    }
  }

  lemma {:induction false} HeldTogether(eng: P.Engine, t: P.Trade, g: M.Guard, bars: seq<Candle>, paths: seq<seq<real>>)
    requires Dominates(t, g) && PathsInside(bars, paths) && ReplayExit(eng, t, bars).1 == None
    ensures MonitorExit(g, paths).1 == None
    ensures Dominates(ReplayExit(eng, t, bars).0, MonitorExit(g, paths).0)
  {
    if bars != [] {
      var n := |bars| - 1;
      HeldTogether(eng, t, g, bars[..n], paths[..n]);
      StepBounds(eng, t, g, bars, paths);
    }
  }

  /** A bar after which the trade is still open, or takes its profit, or reaches the holding limit. */
  lemma ReplayStep(eng: P.Engine, t: P.Trade, bars: seq<Candle>)
    requires bars != [] && ReplayExit(eng, t, bars[..|bars| - 1]).1 == None
    ensures var n := |bars| - 1; var held := ReplayExit(eng, t, bars[..n]).0;
      var now := held.(bars := held.bars + 1).Observed(bars[n]); var (later, exit) := ReplayExit(eng, t, bars);
      && later == now
      && (now.ExitOn(bars[n]).Some? ==> exit == Some((n, now.ExitOn(bars[n]).value.0)))
      && (now.ExitOn(bars[n]) == None ==> exit == None || exit == Some((n, Manual)))
      && (exit == None ==> now.ExitOn(bars[n]) == None)
  {
  }

  lemma MonitorStep(g: M.Guard, paths: seq<seq<real>>)
    requires paths != [] && MonitorExit(g, paths[..|paths| - 1]).1 == None
    ensures var n := |paths| - 1; var (later, reason) := Watched(MonitorExit(g, paths[..n]).0, paths[n]);
      MonitorExit(g, paths) == (later, if reason.Some? then Some((n, reason.value)) else None)
  {
  }

  lemma StepBounds(eng: P.Engine, t: P.Trade, g: M.Guard, bars: seq<Candle>, paths: seq<seq<real>>)
    requires bars != [] && PathsInside(bars, paths)
    requires var n := |bars| - 1;
      && ReplayExit(eng, t, bars[..n]).1 == None && MonitorExit(g, paths[..n]).1 == None
      && Dominates(ReplayExit(eng, t, bars[..n]).0, MonitorExit(g, paths[..n]).0)
    requires ReplayExit(eng, t, bars).1.Some? ==> ReplayExit(eng, t, bars).1.value.1 in {TakeProfit, Manual}
    ensures Dominates(ReplayExit(eng, t, bars).0, MonitorExit(g, paths).0)
    ensures MonitorExit(g, paths).1 == None || MonitorExit(g, paths).1 == Some((|bars| - 1, TakeProfit))
    ensures ReplayExit(eng, t, bars).1 == None ==> MonitorExit(g, paths).1 == None
  {
    var n := |bars| - 1;
    var held := ReplayExit(eng, t, bars[..n]).0;
    var now := held.(bars := held.bars + 1).Observed(bars[n]);
    ReplayStep(eng, t, bars);
    MonitorStep(g, paths);
    BarBounds(now, MonitorExit(g, paths[..n]).0, bars[n], paths[n]);
  }

  // ---- soundness ------------------------------------------------------

  lemma {:induction false} ExitWithinBars(eng: P.Engine, t: P.Trade, bars: seq<Candle>, k: nat)
    requires k <= |bars|
    ensures var exit := ReplayExit(eng, t, bars).1;
      && (exit.Some? ==> exit.value.0 < |bars|)
      && (exit.Some? && exit.value.0 < k ==> ReplayExit(eng, t, bars[..k]).1 == exit)
      && (exit == None || exit.value.0 >= k ==> ReplayExit(eng, t, bars[..k]).1 == None)
    decreases |bars|
  {
    if k == |bars| {
      assert bars[..k] == bars;
      if bars != [] {
        ExitWithinBars(eng, t, bars[..|bars| - 1], 0);
      }
    } else {
      var before := bars[..|bars| - 1];
      assert before[..k] == bars[..k];
      ExitWithinBars(eng, t, before, k);
    }
  }

  lemma {:induction false} MonitorWithinBars(g: M.Guard, paths: seq<seq<real>>, k: nat)
    requires k <= |paths|
    ensures var exit := MonitorExit(g, paths).1;
      && (exit.Some? ==> exit.value.0 < |paths|)
      && (exit.Some? && exit.value.0 < k ==> MonitorExit(g, paths[..k]).1 == exit)
      && (exit == None || exit.value.0 >= k ==> MonitorExit(g, paths[..k]).1 == None)
    decreases |paths|
  {
    if k == |paths| {
      assert paths[..k] == paths;
      if paths != [] {
        MonitorWithinBars(g, paths[..|paths| - 1], 0);
      }
    } else {
      var before := paths[..|paths| - 1];
      assert before[..k] == paths[..k];
      MonitorWithinBars(g, before, k);
    }
  }

  /** Main soundness result: whatever ticks the bars hide, if the live monitor exits in some bar then the
      replay has exited in that bar or an earlier one, for longs and shorts and any levels. */
  lemma ReplayExitsNoLater(eng: P.Engine, t: P.Trade, g: M.Guard, bars: seq<Candle>, paths: seq<seq<real>>)
    requires Dominates(t, g) && PathsInside(bars, paths) && MonitorExit(g, paths).1.Some?
    ensures ReplayExit(eng, t, bars).1.Some?
    ensures ReplayExit(eng, t, bars).1.value.0 <= MonitorExit(g, paths).1.value.0
  {
    var j := MonitorExit(g, paths).1.value.0;
    MonitorWithinBars(g, paths, |paths|);
    MonitorWithinBars(g, paths, j + 1);
    ExitWithinBars(eng, t, bars, j + 1);
    if ReplayExit(eng, t, bars[..j + 1]).1 == None {
      HeldTogether(eng, t, g, bars[..j + 1], paths[..j + 1]);
    }
  }

  /** A take-profit is never an optimistic guess: on the bar where the replay reports one, and on every bar
      before it, no tick path stops the monitor out. */
  lemma TakeProfitIsNeverOptimistic(eng: P.Engine, t: P.Trade, g: M.Guard, bars: seq<Candle>, paths: seq<seq<real>>, i: nat)
    requires Dominates(t, g) && PathsInside(bars, paths)
    requires ReplayExit(eng, t, bars).1 == Some((i, TakeProfit))
    ensures i < |paths|
    ensures MonitorExit(g, paths[..i + 1]).1 == None || MonitorExit(g, paths[..i + 1]).1 == Some((i, TakeProfit))
  {
    ExitWithinBars(eng, t, bars, |bars|);
    ExitWithinBars(eng, t, bars, i);
    ExitWithinBars(eng, t, bars, i + 1);
    var b, p := bars[..i + 1], paths[..i + 1];
    assert b[..i] == bars[..i] && p[..i] == paths[..i];
    HeldTogether(eng, t, g, bars[..i], paths[..i]);
    StepBounds(eng, t, g, b, p);
  }

  // ---- tightness ------------------------------------------------------

  /** The path that touches a bar's best price and then its worst. */
  function BestThenWorst(d: Direction, bar: Candle): seq<real> {
    if d == Long then [bar.high, bar.low] else [bar.low, bar.high]
  }

  function BestThenWorstPaths(d: Direction, bars: seq<Candle>): (paths: seq<seq<real>>)
    ensures |paths| == |bars|
    ensures forall i :: 0 <= i < |bars| ==> paths[i] == BestThenWorst(d, bars[i])
  {
    if bars == [] then []
    else BestThenWorstPaths(d, bars[..|bars| - 1]) + [BestThenWorst(d, bars[|bars| - 1])]
  }

  predicate ProperBars(bars: seq<Candle>) {
    forall i :: 0 <= i < |bars| ==> 0.0 < bars[i].low <= bars[i].high
  }

  predicate Mirrors(t: P.Trade, g: M.Guard) {
    SameLevels(t, g) && g.extreme == Some(t.extreme)
  }

  predicate SpansBoth(t: P.Trade, bar: Candle) {
    && t.ExitOn(bar).Some? && t.ExitOn(bar).value.0 != TakeProfit
    && t.takeProfitPrice.Some?
    && M.AtTarget(t.direction, t.takeProfitPrice.value, t.Best(bar))
  }

  lemma BestThenWorstUnfolds(g: M.Guard, d: Direction, bar: Candle)
    requires 0.0 < bar.low <= bar.high
    ensures var ticks := BestThenWorst(d, bar);
      var first := g.Observed(ticks[0]);
      var both := first.Observed(ticks[1]);
      Watched(g, ticks) == if first.Breach(ticks[0]).Some? then (first, first.Breach(ticks[0]))
                           else (both, both.Breach(ticks[1]))
  {
    var ticks := BestThenWorst(d, bar);
    assert ticks[..1] == [ticks[0]] && ticks[..1][..0] == [];
    assert Watched(g, []) == (g, None);
    assert Watched(g, ticks[..1]) == (g.Observed(ticks[0]), g.Observed(ticks[0]).Breach(ticks[0]));
  }

  /** On that path the monitor decides a bar as the replay does, except that a bar reaching both
      levels shows the monitor its target first. */
  lemma BarIsAttained(t: P.Trade, g: M.Guard, bar: Candle)
    requires Mirrors(t, g) && 0.0 < bar.low <= bar.high
    ensures var now := t.Observed(bar); var (seen, exit) := Watched(g, BestThenWorst(t.direction, bar));
      && (exit.Some? <==> now.ExitOn(bar).Some?)
      && (exit == None ==> Mirrors(now, seen))
      && (exit.Some? ==> exit.value == now.ExitOn(bar).value.0 || (SpansBoth(now, bar) && exit.value == TakeProfit))
  {
    BestThenWorstUnfolds(g, t.direction, bar);
  }

  /** Replay and monitor are level after these bars: both out in the same bar, or both still in and alike, unless
      the holding limit closed the replay's trade, when the monitor was not out by that bar. */
  predicate Level(eng: P.Engine, t: P.Trade, g: M.Guard, bars: seq<Candle>, paths: seq<seq<real>>) {
    var (held, out) := ReplayExit(eng, t, bars);
    var (seen, exit) := MonitorExit(g, paths);
    && held.direction == t.direction
    && (if out == None then exit == None && Mirrors(held, seen)
        else if out.value.1 == Manual then exit == None || exit.value.0 > out.value.0
        else exit.Some? && exit.value.0 == out.value.0)
  }

  lemma MonitorExitPersists(g: M.Guard, paths: seq<seq<real>>)
    requires paths != []
    ensures var n := |paths| - 1; var before := MonitorExit(g, paths[..n]).1; var exit := MonitorExit(g, paths).1;
      if before.Some? then exit == before else exit == None || exit.value.0 == n
  {
  }

  lemma LevelStep(eng: P.Engine, t: P.Trade, g: M.Guard, bars: seq<Candle>, paths: seq<seq<real>>)
    requires bars != [] && |paths| == |bars|
    requires var n := |bars| - 1;
      && Level(eng, t, g, bars[..n], paths[..n])
      && 0.0 < bars[n].low <= bars[n].high && paths[n] == BestThenWorst(t.direction, bars[n])
    ensures Level(eng, t, g, bars, paths)
  {
    var n := |bars| - 1;
    var (held, out) := ReplayExit(eng, t, bars[..n]);
    if out == None {
      ReplayStep(eng, t, bars);
      MonitorStep(g, paths);
      BarIsAttained(held.(bars := held.bars + 1), MonitorExit(g, paths[..n]).0, bars[n]);
    } else {
      ExitWithinBars(eng, t, bars[..n], 0);
      ExitPersists(eng, t, bars);
      MonitorExitPersists(g, paths);
    }
  }

  lemma {:induction false} LevelThroughout(eng: P.Engine, t: P.Trade, g: M.Guard, bars: seq<Candle>)
    requires Mirrors(t, g) && ProperBars(bars)
    ensures Level(eng, t, g, bars, BestThenWorstPaths(t.direction, bars))
    decreases |bars|
  {
    if bars != [] {
      var n, paths := |bars| - 1, BestThenWorstPaths(t.direction, bars);
      LevelThroughout(eng, t, g, bars[..n]);
      assert paths[..n] == BestThenWorstPaths(t.direction, bars[..n]);
      LevelStep(eng, t, g, bars, paths);
    }
  }

  /** Main tightness result: some tick path inside the bars makes the monitor exit in exactly the
      replay's exit bar, so the replay's bar is the earliest any path can exit; where the holding limit closed
      the replay's trade, that path had not yet taken the monitor out. */
  lemma ReplayBarIsAttained(eng: P.Engine, t: P.Trade, g: M.Guard, bars: seq<Candle>)
    requires Mirrors(t, g) && ProperBars(bars)
    ensures var paths := BestThenWorstPaths(t.direction, bars);
      PathsInside(bars, paths) && Level(eng, t, g, bars, paths)
  {
    BestThenWorstIsInside(t.direction, bars);
    LevelThroughout(eng, t, g, bars);
  }

  lemma BestThenWorstIsInside(d: Direction, bars: seq<Candle>)
    requires ProperBars(bars)
    ensures PathsInside(bars, BestThenWorstPaths(d, bars))
  {
  }
}
