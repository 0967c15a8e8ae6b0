/** What every completed trade of a replay is, told from the views and the bars alone. */
module ReplayTrades {
  import opened Schemas
  import opened Replay
  import M = Monitor

  // ---- the levels on a bar --------------------------------------------

  /** The best price after bar `b` of a trade entered at the close of bar `entry`. */
  function BestAt(driver: seq<Candle>, d: Direction, entry: nat, b: nat): real
    requires entry <= b < |driver|
    decreases b
  {
    if b == entry then driver[entry].close
    else if d == Long then Max(BestAt(driver, d, entry, b - 1), driver[b].high)
    else Min(BestAt(driver, d, entry, b - 1), driver[b].low)
  }

  /** A bar's extreme in the trade's favour. */
  function Favourable(d: Direction, bar: Candle): real {
    if d == Long then bar.high else bar.low
  }

  /** It is the entry price or the favourable extreme of a bar since, and none of these is better. */
  lemma {:induction false} BestAtIsTheExtremum(driver: seq<Candle>, d: Direction, entry: nat, b: nat)
    requires entry <= b < |driver|
    ensures var best := BestAt(driver, d, entry, b);
      && (best == driver[entry].close || exists k :: entry < k <= b && best == Favourable(d, driver[k]))
      && (if d == Long then best >= driver[entry].close else best <= driver[entry].close)
      && (forall k :: entry < k <= b ==>
            if d == Long then best >= Favourable(d, driver[k]) else best <= Favourable(d, driver[k]))
    decreases b
  {
    if b > entry {
      BestAtIsTheExtremum(driver, d, entry, b - 1);
      assert Favourable(d, driver[b]) == if d == Long then driver[b].high else driver[b].low;
    }
  }

  /** The view taken at the close of a bar, if it is one to act on. */
  predicate ActionableAt(eng: Engine, driver: seq<Candle>, others: seq<(string, seq<Candle>)>, b: nat)
    requires b < |driver|
  {
    var view := eng.analyst(HistoryAt(eng, driver, others, b));
    view.Some? && view.value.direction != Flat && view.value.confidence >= eng.minConfidence
  }

  function ViewAt(eng: Engine, driver: seq<Candle>, others: seq<(string, seq<Candle>)>, b: nat): View
    requires b < |driver| && ActionableAt(eng, driver, others, b)
  {
    eng.analyst(HistoryAt(eng, driver, others, b)).value
  }

  /** The bar's adverse extreme is at or through the view's stop, or the trailing percentage off the best price. */
  predicate StopAt(eng: Engine, driver: seq<Candle>, v: View, entry: nat, b: nat)
    requires entry <= b < |driver|
  {
    M.ReachesStop(v.direction, v.stop, eng.trailingPct, BestAt(driver, v.direction, entry, b),
                  if v.direction == Long then driver[b].low else driver[b].high)
  }

  /** The bar's favourable extreme is at or through the view's target. */
  predicate TargetAt(driver: seq<Candle>, v: View, b: nat)
    requires b < |driver|
  {
    M.ReachesTarget(v.direction, v.takeProfit, Favourable(v.direction, driver[b]))
  }

  /** No level is reached after the entry bar and before bar `upTo`. */
  predicate Untouched(eng: Engine, driver: seq<Candle>, v: View, entry: nat, upTo: nat)
    requires upTo <= |driver|
  {
    forall b :: entry < b < upTo ==> !StopAt(eng, driver, v, entry, b) && !TargetAt(driver, v, b)
  }

  // ---- a completed trade ----------------------------------------------

  /** The exit: at the stop that binds if the bar reaches one, else at the target it reaches; a forced one at
      the close of a bar that reaches neither, the last bar or one at the holding limit. */
  predicate ExitTold(eng: Engine, driver: seq<Candle>, v: View, c: Completed, s: Span)
    requires s.entry <= s.exit < |driver|
  {
    if c.forced then
      && c.reason == Manual && c.exitPrice == driver[s.exit].close
      && Untouched(eng, driver, v, s.entry, s.exit + 1)
      && (s.exit == |driver| - 1 || (eng.maxBarsHeld.Some? && s.exit - s.entry >= eng.maxBarsHeld.value))
    else
      && s.entry < s.exit
      && Untouched(eng, driver, v, s.entry, s.exit)
      && if StopAt(eng, driver, v, s.entry, s.exit)
         then M.BindingStop(v.direction, v.stop, eng.trailingPct, BestAt(driver, v.direction, s.entry, s.exit),
                            c.exitPrice, c.reason)
         else TargetAt(driver, v, s.exit) && c.reason == TakeProfit && v.takeProfit == Some(c.exitPrice)
  }

  /** The money: a long earns exit less entry, a short entry less exit; both sides are charged. */
  predicate MoneyTold(eng: Engine, c: Completed) {
    && c.grossPnl == (if c.direction == Long then c.exitPrice - c.entryPrice else c.entryPrice - c.exitPrice) * eng.size
    && c.costs * 10000.0 == (c.entryPrice + c.exitPrice) * eng.size * eng.costBps
  }

  /** Taken on the view at the close of its entry bar, in that view's direction, at that close. */
  predicate EntryTold(driver: seq<Candle>, v: View, c: Completed, s: Span)
    requires s.entry <= s.exit < |driver|
  {
    && c.direction == v.direction && c.confidence == v.confidence
    && c.entryPrice == driver[s.entry].close && c.entryTime == driver[s.entry].closeTime
    && c.exitTime == driver[s.exit].closeTime && c.barsHeld == s.exit - s.entry
  }

  predicate Told(eng: Engine, driver: seq<Candle>, others: seq<(string, seq<Candle>)>, c: Completed, s: Span) {
    && s.entry <= s.exit < |driver|
    && ActionableAt(eng, driver, others, s.entry)
    && EntryTold(driver, ViewAt(eng, driver, others, s.entry), c, s)
    && ExitTold(eng, driver, ViewAt(eng, driver, others, s.entry), c, s)
    && MoneyTold(eng, c)
  }

  /** What a trade still open before bar `upTo` carries from its view. */
  predicate OpenTold(eng: Engine, driver: seq<Candle>, v: View, t: Trade, entry: nat, upTo: nat) {
    && entry < upTo <= |driver| && v.direction != Flat
    && t.direction == v.direction && t.confidence == v.confidence
    && t.stopPrice == v.stop && t.takeProfitPrice == v.takeProfit && t.trailingPct == eng.trailingPct
    && t.entryPrice == driver[entry].close && t.entryTime == driver[entry].closeTime
    && t.entryCost == CostFor(eng, t.entryPrice)
    && t.extreme == BestAt(driver, v.direction, entry, upTo - 1)
    && t.bars == upTo - 1 - entry
  }

  predicate OpenAsTold(eng: Engine, driver: seq<Candle>, others: seq<(string, seq<Candle>)>, t: Trade, entry: nat, upTo: nat) {
    && entry < upTo <= |driver|
    && ActionableAt(eng, driver, others, entry)
    && OpenTold(eng, driver, ViewAt(eng, driver, others, entry), t, entry, upTo)
    && Untouched(eng, driver, ViewAt(eng, driver, others, entry), entry, upTo)
  }

  // ---- one bar --------------------------------------------------------

  lemma ChargesAdd(a: real, b: real, size: real, bps: real)
    ensures (a * size * bps / 10000.0 + b * size * bps / 10000.0) * 10000.0 == (a + b) * size * bps
  {
    assert (a + b) * size == a * size + b * size;
    assert (a * size + b * size) * bps == a * size * bps + b * size * bps;
  }

  lemma GrossIsWritten(d: Direction, entry: real, exit: real, size: real)
    requires d != Flat
    ensures (exit - entry) * size * Sign(d) == (if d == Long then exit - entry else entry - exit) * size
  {
  }

  lemma MoneyOf(eng: Engine, t: Trade, price: real, time: int, reason: ExitReason, forced: bool)
    requires t.direction != Flat && t.entryCost == CostFor(eng, t.entryPrice)
    ensures MoneyTold(eng, ClosedTrade(eng, t, price, time, reason, forced))
  {
    GrossIsWritten(t.direction, t.entryPrice, price, eng.size);
    ChargesAdd(t.entryPrice, price, eng.size, eng.costBps);
  }

  /** The open trade after one more bar. */
  function Next(t: Trade, bar: Candle): Trade {
    t.(bars := t.bars + 1).Observed(bar)
  }

  lemma NextIsTold(eng: Engine, driver: seq<Candle>, v: View, t: Trade, entry: nat, b: nat)
    requires b < |driver| && OpenTold(eng, driver, v, t, entry, b)
    ensures OpenTold(eng, driver, v, Next(t, driver[b]), entry, b + 1)
  {
  }

  /** The exit a bar triggers is the one the levels give. */
  lemma ExitIsTold(eng: Engine, driver: seq<Candle>, v: View, now: Trade, entry: nat, b: nat)
    requires b < |driver| && OpenTold(eng, driver, v, now, entry, b + 1)
    ensures var hit := now.ExitOn(driver[b]);
      if StopAt(eng, driver, v, entry, b) then
        hit.Some? && M.BindingStop(v.direction, v.stop, eng.trailingPct, BestAt(driver, v.direction, entry, b),
                                   hit.value.1, hit.value.0)
      else if TargetAt(driver, v, b) then hit.Some? && v.takeProfit.Some? && hit == Some((TakeProfit, v.takeProfit.value))
      else hit == None
  {
    M.StopInPercent(v.direction, v.stop, eng.trailingPct, now.extreme, now.Worst(driver[b]));
  }

  lemma CompletedIsTold(eng: Engine, driver: seq<Candle>, others: seq<(string, seq<Candle>)>, t: Trade, entry: nat,
                        b: nat, price: real, reason: ExitReason, forced: bool)
    requires entry <= b < |driver| && ActionableAt(eng, driver, others, entry)
    requires OpenTold(eng, driver, ViewAt(eng, driver, others, entry), t, entry, b + 1)
    requires ExitTold(eng, driver, ViewAt(eng, driver, others, entry),
                      ClosedTrade(eng, t, price, driver[b].closeTime, reason, forced), Span(entry, b))
    ensures Told(eng, driver, others, ClosedTrade(eng, t, price, driver[b].closeTime, reason, forced), Span(entry, b))
  {
    MoneyOf(eng, t, price, driver[b].closeTime, reason, forced);
  }

  lemma UntouchedNext(eng: Engine, driver: seq<Candle>, v: View, entry: nat, b: nat)
    requires b < |driver| && Untouched(eng, driver, v, entry, b)
    requires entry <= b && !StopAt(eng, driver, v, entry, b) && !TargetAt(driver, v, b)
    ensures Untouched(eng, driver, v, entry, b + 1)
  {
  }

  /** One bar turns an open trade into a completed one as told, or leaves it open as told. */
  lemma ManagedIsTold(eng: Engine, driver: seq<Candle>, others: seq<(string, seq<Candle>)>, st: State, entry: nat, b: nat)
    requires b < |driver| && st.open.Some? && OpenAsTold(eng, driver, others, st.open.value, entry, b)
    ensures var st' := Managed(eng, st, driver[b]);
      if st'.open.Some? then st'.trades == st.trades && OpenAsTold(eng, driver, others, st'.open.value, entry, b + 1)
      else |st'.trades| == |st.trades| + 1 && st'.trades[..|st.trades|] == st.trades
           && Told(eng, driver, others, st'.trades[|st.trades|], Span(entry, b))
  {
    var v, bar := ViewAt(eng, driver, others, entry), driver[b];
    var t := Next(st.open.value, bar);
    var hit := t.ExitOn(bar);
    NextIsTold(eng, driver, v, st.open.value, entry, b);
    ExitIsTold(eng, driver, v, t, entry, b);
    if hit.Some? {
      CompletedIsTold(eng, driver, others, t, entry, b, hit.value.1, hit.value.0, false);
    } else {
      UntouchedNext(eng, driver, v, entry, b);
      if eng.maxBarsHeld.Some? && t.bars >= eng.maxBarsHeld.value {
        CompletedIsTold(eng, driver, others, t, entry, b, bar.close, Manual, true);
      }
    }
  }

  lemma OpenedIsTold(eng: Engine, driver: seq<Candle>, others: seq<(string, seq<Candle>)>, b: nat)
    requires b < |driver| && ActionableAt(eng, driver, others, b)
    ensures OpenAsTold(eng, driver, others, Opened(eng, ViewAt(eng, driver, others, b), driver[b]), b, b + 1)
  {
  }

  /** A trade closed after the last bar, at its close. */
  lemma ForcedIsTold(eng: Engine, driver: seq<Candle>, others: seq<(string, seq<Candle>)>, t: Trade, entry: nat)
    requires driver != [] && OpenAsTold(eng, driver, others, t, entry, |driver|)
    ensures var last := driver[|driver| - 1];
      Told(eng, driver, others, ClosedTrade(eng, t, last.close, last.closeTime, Manual, true), Span(entry, |driver| - 1))
  {
    CompletedIsTold(eng, driver, others, t, entry, |driver| - 1, driver[|driver| - 1].close, Manual, true);
  }

  // ---- which bars open trades -----------------------------------------

  ghost predicate Opens(spans: seq<Span>, b: nat) {
    exists i :: 0 <= i < |spans| && spans[i].entry == b
  }

  /** A trade entered before the bar is still held after it. */
  ghost predicate Occupied(spans: seq<Span>, b: nat) {
    exists i :: 0 <= i < |spans| && spans[i].entry < b < spans[i].exit
  }

  lemma OneMoreSpan(spans: seq<Span>, s: Span, b: nat)
    ensures Opens(spans + [s], b) <==> Opens(spans, b) || s.entry == b
    ensures Occupied(spans + [s], b) <==> Occupied(spans, b) || s.entry < b < s.exit
  {
    var all := spans + [s];
    assert all[|spans|] == s;
    if Opens(spans, b) {
      var i :| 0 <= i < |spans| && spans[i].entry == b;
      assert all[i] == spans[i];
    }
    if Occupied(spans, b) {
      var i :| 0 <= i < |spans| && spans[i].entry < b < spans[i].exit;
      assert all[i] == spans[i];
    }
  }

  /** A bar opens a trade exactly when its view is actionable and no trade is held through it. */
  ghost predicate OpensWhenFree(eng: Engine, driver: seq<Candle>, others: seq<(string, seq<Candle>)>, spans: seq<Span>,
                                upTo: nat)
    requires upTo <= |driver|
  {
    forall b {:trigger Opens(spans, b)} :: eng.warmup <= b < upTo ==>
      (Opens(spans, b) <==> ActionableAt(eng, driver, others, b) && !Occupied(spans, b))
  }

  /** The spans of the completed trades, and of the open one as far as it has got. */
  function Timeline(st: State, spans: seq<Span>, entry: nat, upTo: nat): seq<Span> {
    if st.open.Some? then spans + [Span(entry, upTo)] else spans
  }

  /** A trade held through bar `upTo` changes nothing but that bar. */
  lemma HeldThrough(eng: Engine, driver: seq<Candle>, others: seq<(string, seq<Candle>)>, spans: seq<Span>, entry: nat,
                    upTo: nat)
    requires entry < upTo < |driver| && Chronological(eng, spans, upTo)
    requires OpensWhenFree(eng, driver, others, spans + [Span(entry, upTo)], upTo)
    ensures OpensWhenFree(eng, driver, others, spans + [Span(entry, upTo + 1)], upTo + 1)
  {
    forall b | eng.warmup <= b < upTo + 1
      ensures Opens(spans + [Span(entry, upTo + 1)], b)
              <==> ActionableAt(eng, driver, others, b) && !Occupied(spans + [Span(entry, upTo + 1)], b)
    {
      OneMoreSpan(spans, Span(entry, upTo), b);
      OneMoreSpan(spans, Span(entry, upTo + 1), b);
    }
  }

  /** On a bar at which nothing is held any more, the view decides. */
  lemma FreeAt(eng: Engine, driver: seq<Candle>, others: seq<(string, seq<Candle>)>, spans: seq<Span>, upTo: nat)
    requires upTo < |driver| && Chronological(eng, spans, upTo + 1)
    requires forall i :: 0 <= i < |spans| ==> spans[i].entry < upTo
    requires OpensWhenFree(eng, driver, others, spans, upTo)
    ensures OpensWhenFree(eng, driver, others,
                          if ActionableAt(eng, driver, others, upTo) then spans + [Span(upTo, upTo + 1)] else spans,
                          upTo + 1)
  {
    if ActionableAt(eng, driver, others, upTo) {
      forall b | eng.warmup <= b < upTo + 1
        ensures Opens(spans + [Span(upTo, upTo + 1)], b)
                <==> ActionableAt(eng, driver, others, b) && !Occupied(spans + [Span(upTo, upTo + 1)], b)
      {
        OneMoreSpan(spans, Span(upTo, upTo + 1), b);
      }
    }
  }

  // ---- every run ------------------------------------------------------

  /** Each completed trade is as told of its own span. */
  ghost predicate AllTold(eng: Engine, driver: seq<Candle>, others: seq<(string, seq<Candle>)>, trades: seq<Completed>,
                          spans: seq<Span>) {
    && |spans| == |trades|
    && forall i {:trigger Told(eng, driver, others, trades[i], spans[i])} ::
         0 <= i < |spans| ==> Told(eng, driver, others, trades[i], spans[i])
  }

  lemma OneMoreTold(eng: Engine, driver: seq<Candle>, others: seq<(string, seq<Candle>)>, trades: seq<Completed>,
                    spans: seq<Span>, c: Completed, s: Span)
    requires AllTold(eng, driver, others, trades, spans) && Told(eng, driver, others, c, s)
    ensures AllTold(eng, driver, others, trades + [c], spans + [s])
  {
    forall i | 0 <= i < |spans| + 1
      ensures Told(eng, driver, others, (trades + [c])[i], (spans + [s])[i])
    {
      if i < |spans| {
        assert Told(eng, driver, others, trades[i], spans[i]);
      }
    }
  }

  /** The state before bar `upTo`: each completed trade as told, the open one too, and bars opened when free. */
  ghost predicate Followed(eng: Engine, driver: seq<Candle>, others: seq<(string, seq<Candle>)>, upTo: nat, st: State,
                           spans: seq<Span>, entry: nat) {
    && Structured(eng, driver, upTo, st, spans, entry)
    && AllTold(eng, driver, others, st.trades, spans)
    && (st.open.Some? ==> OpenAsTold(eng, driver, others, st.open.value, entry, upTo))
    && OpensWhenFree(eng, driver, others, Timeline(st, spans, entry, upTo), upTo)
  }

  lemma ManagedIsFollowed(eng: Engine, driver: seq<Candle>, others: seq<(string, seq<Candle>)>, upTo: nat, st: State,
                          spans: seq<Span>, entry: nat) returns (spans': seq<Span>)
    requires upTo < |driver| && Followed(eng, driver, others, upTo, st, spans, entry)
    ensures var st' := Managed(eng, st, driver[upTo]);
      && Structured(eng, driver, upTo + 1, st', spans', entry)
      && (forall i :: 0 <= i < |spans'| ==> spans'[i].entry < upTo)
      && AllTold(eng, driver, others, st'.trades, spans')
      && (st'.open.Some? ==>
            && OpenAsTold(eng, driver, others, st'.open.value, entry, upTo + 1)
            && OpensWhenFree(eng, driver, others, Timeline(st', spans', entry, upTo + 1), upTo + 1))
      && (st'.open == None ==> OpensWhenFree(eng, driver, others, spans', upTo))
  {
    spans' := ManagedKeepsStructure(eng, driver, upTo, st, spans, entry);
    if st.open.Some? {
      ManagedIsTold(eng, driver, others, st, entry, upTo);
      var st' := Managed(eng, st, driver[upTo]);
      if st'.open.Some? {
        HeldThrough(eng, driver, others, spans, entry, upTo);
      } else {
        var c := st'.trades[|st.trades|];
        assert st'.trades == st.trades + [c];
        OneMoreTold(eng, driver, others, st.trades, spans, c, Span(entry, upTo));
      }
    }
  }

  lemma ConsideredIsFollowed(eng: Engine, driver: seq<Candle>, others: seq<(string, seq<Candle>)>, upTo: nat, st: State,
                             spans: seq<Span>, entry: nat) returns (entry': nat)
    requires upTo < |driver| && eng.warmup <= upTo && Structured(eng, driver, upTo + 1, st, spans, entry)
    requires forall i :: 0 <= i < |spans| ==> spans[i].entry < upTo
    requires AllTold(eng, driver, others, st.trades, spans)
    requires st.open.Some? ==>
      && OpenAsTold(eng, driver, others, st.open.value, entry, upTo + 1)
      && OpensWhenFree(eng, driver, others, Timeline(st, spans, entry, upTo + 1), upTo + 1)
    requires st.open == None ==> OpensWhenFree(eng, driver, others, spans, upTo)
    ensures Followed(eng, driver, others, upTo + 1,
                     Considered(eng, st, HistoryAt(eng, driver, others, upTo), driver[upTo]), spans, entry')
  {
    entry' := ConsideredKeepsStructure(eng, driver, others, upTo, st, spans, entry);
    if st.open == None {
      FreeAt(eng, driver, others, spans, upTo);
      if ActionableAt(eng, driver, others, upTo) {
        OpenedIsTold(eng, driver, others, upTo);
      }
    }
  }

  ghost predicate SomehowFollowed(eng: Engine, driver: seq<Candle>, others: seq<(string, seq<Candle>)>, upTo: nat,
                                  st: State) {
    exists spans, entry :: Followed(eng, driver, others, upTo, st, spans, entry)
  }

  lemma StartIsFollowed(eng: Engine, driver: seq<Candle>, others: seq<(string, seq<Candle>)>, upTo: nat)
    requires upTo <= |driver| && upTo <= eng.warmup
    ensures SomehowFollowed(eng, driver, others, upTo, START)
  {
    assert Followed(eng, driver, others, upTo, START, [], 0);
  }

  lemma StepIsFollowed(eng: Engine, driver: seq<Candle>, others: seq<(string, seq<Candle>)>, upTo: nat, st: State,
                       next: State)
    requires eng.warmup <= upTo < |driver| && SomehowFollowed(eng, driver, others, upTo, st)
    requires next == Considered(eng, Managed(eng, st, driver[upTo]), HistoryAt(eng, driver, others, upTo), driver[upTo])
    ensures SomehowFollowed(eng, driver, others, upTo + 1, next)
  {
    var spans, entry :| Followed(eng, driver, others, upTo, st, spans, entry);
    var spans' := ManagedIsFollowed(eng, driver, others, upTo, st, spans, entry);
    var entry' := ConsideredIsFollowed(eng, driver, others, upTo, Managed(eng, st, driver[upTo]), spans', entry);
  }

  lemma AfterOneMore(eng: Engine, driver: seq<Candle>, others: seq<(string, seq<Candle>)>, upTo: nat) returns (st: State)
    requires eng.warmup < upTo <= |driver|
    ensures st == After(eng, driver, others, upTo - 1)
    ensures After(eng, driver, others, upTo)
            == Considered(eng, Managed(eng, st, driver[upTo - 1]), HistoryAt(eng, driver, others, upTo - 1),
                          driver[upTo - 1])
  {
    st := After(eng, driver, others, upTo - 1);
  }

  lemma {:induction false} RunIsFollowed(eng: Engine, driver: seq<Candle>, others: seq<(string, seq<Candle>)>, upTo: nat)
    requires upTo <= |driver|
    ensures SomehowFollowed(eng, driver, others, upTo, After(eng, driver, others, upTo))
    decreases upTo
  {
    if upTo <= eng.warmup {
      StartIsFollowed(eng, driver, others, upTo);
    } else {
      var st := AfterOneMore(eng, driver, others, upTo);
      RunIsFollowed(eng, driver, others, upTo - 1);
      StepIsFollowed(eng, driver, others, upTo - 1, st, After(eng, driver, others, upTo));
    }
  }

  lemma LastBarApart(eng: Engine, driver: seq<Candle>, others: seq<(string, seq<Candle>)>, spans: seq<Span>, entry: nat)
    requires driver != [] && OpensWhenFree(eng, driver, others, spans + [Span(entry, |driver|)], |driver|)
    ensures OpensWhenFree(eng, driver, others, spans + [Span(entry, |driver| - 1)], |driver| - 1)
  {
    forall b | eng.warmup <= b < |driver| - 1
      ensures Opens(spans + [Span(entry, |driver| - 1)], b)
              <==> ActionableAt(eng, driver, others, b) && !Occupied(spans + [Span(entry, |driver| - 1)], b)
    {
      OneMoreSpan(spans, Span(entry, |driver| - 1), b);
      OneMoreSpan(spans, Span(entry, |driver|), b);
    }
  }

  lemma FinishIsTold(eng: Engine, driver: seq<Candle>, others: seq<(string, seq<Candle>)>, st: State, spans: seq<Span>,
                     entry: nat)
    requires driver != [] && AllTold(eng, driver, others, st.trades, spans)
    requires st.open.Some? ==> OpenAsTold(eng, driver, others, st.open.value, entry, |driver|)
    requires OpensWhenFree(eng, driver, others, Timeline(st, spans, entry, |driver|), |driver|)
    ensures var all := if st.open.Some? then spans + [Span(entry, |driver| - 1)] else spans;
      && AllTold(eng, driver, others, Finished(eng, st, driver[|driver| - 1]).trades, all)
      && OpensWhenFree(eng, driver, others, all, |driver| - 1)
  {
    if st.open.Some? {
      var last := driver[|driver| - 1];
      ForcedIsTold(eng, driver, others, st.open.value, entry);
      OneMoreTold(eng, driver, others, st.trades, spans,
                  ClosedTrade(eng, st.open.value, last.close, last.closeTime, Manual, true), Span(entry, |driver| - 1));
      LastBarApart(eng, driver, others, spans, entry);
    }
  }

  ghost predicate Accounted(eng: Engine, driver: seq<Candle>, others: seq<(string, seq<Candle>)>, trades: seq<Completed>,
                            spans: seq<Span>)
    requires driver != []
  {
    && WellSpanned(eng, driver, trades, spans)
    && AllTold(eng, driver, others, trades, spans)
    && OpensWhenFree(eng, driver, others, spans, |driver| - 1)
  }

  /** The trades of the run. */
  function TradesOf(eng: Engine, driver: seq<Candle>, others: seq<(string, seq<Candle>)>): seq<Completed>
    requires eng.warmup < |driver|
  {
    Finished(eng, After(eng, driver, others, |driver|), driver[|driver| - 1]).trades
  }

  lemma AccountOf(eng: Engine, driver: seq<Candle>, others: seq<(string, seq<Candle>)>) returns (all: seq<Span>)
    requires eng.warmup < |driver|
    ensures Accounted(eng, driver, others, TradesOf(eng, driver, others), all)
  {
    RunIsFollowed(eng, driver, others, |driver|);
    var st := After(eng, driver, others, |driver|);
    var spans, entry :| Followed(eng, driver, others, |driver|, st, spans, entry);
    all := FinishKeepsStructure(eng, driver, st, spans, entry);
    FinishIsTold(eng, driver, others, st, spans, entry);
  }

  /** Every trade of every run, from the views and bars alone: taken in the direction of the actionable view at its
      entry close, never touching a level before its exit bar, left at the level its reason names or at a close,
      earning the difference in its direction; and a bar before the last opens one exactly when its view is
      actionable and no other trade is held through it. */
  lemma TradesAreTold(eng: Engine, driver: seq<Candle>, others: seq<(string, seq<Candle>)>)
    requires eng.warmup < |driver|
    ensures exists spans :: Accounted(eng, driver, others, TradesOf(eng, driver, others), spans)
  {
    var spans := AccountOf(eng, driver, others);
  }
}
