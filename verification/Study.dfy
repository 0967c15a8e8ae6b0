/** The forward-horizon study: one signal over one symbol's history. */
module Study {
  import opened Schemas
  import S = Sampling

  datatype Bar = Bar(closeTime: int, close: real)

  datatype FundingPoint = FundingPoint(occurredAt: int, rate: real)

  datatype Window = Window(candles: seq<Bar>, funding: seq<FundingPoint>, openInterest: seq<real>)

  datatype Reading = Reading(direction: Direction, probability: real, conviction: real, value: real)

  datatype Observation = Observation(
    index: nat,
    timestamp: int,
    reading: Reading,
    entryPrice: real,
    exitPrice: real,
    grossReturn: real,
    netReturn: real,
    independent: bool)

  /** `evaluate` is the signal under test: any deterministic reading of a window. */
  datatype Config = Config(
    horizon: nat,
    minBars: nat,
    windowBars: nat,
    roundTripCost: real,
    evaluate: Window -> Option<Reading>)
  {
    predicate Valid() {
      horizon >= 1 && windowBars >= 1
    }

    function Start(): nat {
      if minBars >= 1 then minBars - 1 else 0
    }
  }

  datatype Inputs = Inputs(candles: seq<Bar>, funding: seq<FundingPoint>, openInterest: seq<real>)

  function FirstOf<T>(s: seq<T>, n: nat): seq<T> {
    if |s| <= n then s else s[..n]
  }

  // ---- the funding cursor ---------------------------------------------

  function Advanced(funding: seq<FundingPoint>, cursor: nat, time: int): (c: nat)
    requires cursor <= |funding|
    ensures cursor <= c <= |funding|
    decreases |funding| - cursor
  {
    if cursor < |funding| && funding[cursor].occurredAt <= time then Advanced(funding, cursor + 1, time)
    else cursor
  }

  /** The cursor as it stands while bar `index` is evaluated. */
  function CursorAt(cfg: Config, x: Inputs, index: nat): (c: nat)
    requires cfg.Start() <= index < |x.candles|
    ensures c <= |x.funding|
  {
    Advanced(x.funding, if index == cfg.Start() then 0 else CursorAt(cfg, x, index - 1), x.candles[index].closeTime)
  }

  /** Everything settled by a time, in order. */
  function SettledBy(funding: seq<FundingPoint>, time: int): seq<FundingPoint> {
    if funding == [] then []
    else
      var last := funding[|funding| - 1];
      SettledBy(funding[..|funding| - 1], time) + (if last.occurredAt <= time then [last] else [])
  }

  predicate SortedFunding(funding: seq<FundingPoint>) {
    forall i, j :: 0 <= i <= j < |funding| ==> funding[i].occurredAt <= funding[j].occurredAt
  }

  predicate ClosesInOrder(candles: seq<Bar>) {
    forall i, j :: 0 <= i <= j < |candles| ==> candles[i].closeTime <= candles[j].closeTime
  }

  lemma {:induction false} AdvancedStops(funding: seq<FundingPoint>, cursor: nat, time: int)
    requires cursor <= |funding|
    ensures var c := Advanced(funding, cursor, time);
      && (c < |funding| ==> funding[c].occurredAt > time)
      && forall i :: cursor <= i < c ==> funding[i].occurredAt <= time
    decreases |funding| - cursor
  {
    if cursor < |funding| && funding[cursor].occurredAt <= time {
      AdvancedStops(funding, cursor + 1, time);
    }
  }

  /** Whatever order funding arrives in, a signal never sees a point that settles after its bar. */
  lemma {:induction false} CursorNeverLeaks(cfg: Config, x: Inputs, index: nat)
    requires ClosesInOrder(x.candles) && cfg.Start() <= index < |x.candles|
    ensures forall i :: 0 <= i < CursorAt(cfg, x, index) ==> x.funding[i].occurredAt <= x.candles[index].closeTime
    ensures var c := CursorAt(cfg, x, index); c < |x.funding| ==> x.funding[c].occurredAt > x.candles[index].closeTime
  {
    var before := if index == cfg.Start() then 0 else CursorAt(cfg, x, index - 1);
    if index > cfg.Start() {
      CursorNeverLeaks(cfg, x, index - 1);
    }
    AdvancedStops(x.funding, before, x.candles[index].closeTime);
  }

  lemma {:induction false} SettledIsPrefix(funding: seq<FundingPoint>, c: nat, time: int)
    requires c <= |funding|
    requires forall i :: 0 <= i < c ==> funding[i].occurredAt <= time
    requires forall i :: c <= i < |funding| ==> funding[i].occurredAt > time
    ensures SettledBy(funding, time) == funding[..c]
    decreases |funding|
  {
    if funding != [] {
      var before := funding[..|funding| - 1];
      if c < |funding| {
        SettledIsPrefix(before, c, time);
        assert before[..c] == funding[..c];
      } else {
        SettledIsPrefix(before, c - 1, time);
        assert before[..c - 1] + [funding[c - 1]] == funding[..c];
      }
    }
  }

  /** With funding sorted, the incremental cursor is exactly the filter "settled by this close". */
  lemma CursorIsFilter(cfg: Config, x: Inputs, index: nat)
    requires ClosesInOrder(x.candles) && SortedFunding(x.funding) && cfg.Start() <= index < |x.candles|
    ensures x.funding[..CursorAt(cfg, x, index)] == SettledBy(x.funding, x.candles[index].closeTime)
  {
    CursorNeverLeaks(cfg, x, index);
    SettledIsPrefix(x.funding, CursorAt(cfg, x, index), x.candles[index].closeTime);
  }

  // ---- what one bar observes ------------------------------------------

  function WindowAt(cfg: Config, x: Inputs, index: nat, cursor: nat): Window
    requires index < |x.candles| && cursor <= |x.funding|
  {
    var lower := if index + 1 >= cfg.windowBars then index + 1 - cfg.windowBars else 0;
    Window(x.candles[lower..index + 1],
           LastOf(x.funding[..cursor], cfg.windowBars),
           LastOf(FirstOf(x.openInterest, index + 1), cfg.windowBars))
  }

  function Observed(cfg: Config, index: nat, time: int, reading: Reading, entry: real, exit: real): Observation
    requires entry > 0.0
  {
    var gross := (exit - entry) / entry * Sign(reading.direction);
    Observation(index, time, reading, entry, exit, gross, gross - cfg.roundTripCost, false)
  }

  function ObservationAt(cfg: Config, x: Inputs, index: nat): Option<Observation>
    requires cfg.Start() <= index && index + cfg.horizon < |x.candles|
  {
    var bar := x.candles[index];
    var reading := cfg.evaluate(WindowAt(cfg, x, index, CursorAt(cfg, x, index)));
    if reading == None || reading.value.direction == Flat || bar.close <= 0.0 then None
    else Some(Observed(cfg, index, bar.closeTime, reading.value, bar.close, x.candles[index + cfg.horizon].close))
  }

  /** Observations of the bars from the start up to `upTo`, before marking. */
  function Observations(cfg: Config, x: Inputs, upTo: nat): seq<Observation>
    requires upTo <= cfg.Start() || upTo + cfg.horizon <= |x.candles|
  {
    if upTo <= cfg.Start() then []
    else
      var before := Observations(cfg, x, upTo - 1);
      var now := ObservationAt(cfg, x, upTo - 1);
      if now.Some? then before + [now.value] else before
  }

  /** What the signal under test is shown at the close of a bar, with funding in settlement order. */
  function ShownAt(cfg: Config, x: Inputs, index: nat): Window
    requires index < |x.candles|
  {
    Window(LastOf(x.candles[..index + 1], cfg.windowBars),
           LastOf(SettledBy(x.funding, x.candles[index].closeTime), cfg.windowBars),
           LastOf(FirstOf(x.openInterest, index + 1), cfg.windowBars))
  }

  lemma WindowIsShown(cfg: Config, x: Inputs, index: nat)
    requires ClosesInOrder(x.candles) && SortedFunding(x.funding) && cfg.Start() <= index < |x.candles|
    ensures WindowAt(cfg, x, index, CursorAt(cfg, x, index)) == ShownAt(cfg, x, index)
  {
    CursorIsFilter(cfg, x, index);
    assert |x.candles[..index + 1]| == index + 1;
    if index + 1 > cfg.windowBars {
      assert x.candles[..index + 1][index + 1 - cfg.windowBars..] == x.candles[index + 1 - cfg.windowBars..index + 1];
    } else {
      assert x.candles[0..index + 1] == x.candles[..index + 1];
    }
  }

  /** A bar is observed when its reading is directional and its close positive. */
  predicate Observes(cfg: Config, x: Inputs, index: nat)
    requires index < |x.candles|
  {
    var reading := cfg.evaluate(ShownAt(cfg, x, index));
    reading.Some? && reading.value.direction != Flat && x.candles[index].close > 0.0
  }

  /** What one observation reports: its bar's reading, the closes of its bar and of the bar a horizon later, the
      fractional gain in the reading's direction, and that less the cost. */
  predicate ObservationTold(cfg: Config, x: Inputs, o: Observation)
    requires o.index + cfg.horizon < |x.candles|
  {
    var entry, exit := x.candles[o.index].close, x.candles[o.index + cfg.horizon].close;
    && Observes(cfg, x, o.index)
    && cfg.evaluate(ShownAt(cfg, x, o.index)) == Some(o.reading)
    && o.timestamp == x.candles[o.index].closeTime && o.entryPrice == entry && o.exitPrice == exit
    && o.grossReturn * entry == (if o.reading.direction == Long then exit - entry else entry - exit)
    && o.netReturn == o.grossReturn - cfg.roundTripCost
  }

  lemma SignedReturn(entry: real, exit: real, d: Direction)
    requires entry > 0.0 && d != Flat
    ensures (exit - entry) / entry * Sign(d) * entry == if d == Long then exit - entry else entry - exit
  {
    var change := (exit - entry) / entry;
    assert change * entry == exit - entry;
  }

  lemma BarIsTold(cfg: Config, x: Inputs, index: nat)
    requires ClosesInOrder(x.candles) && SortedFunding(x.funding)
    requires cfg.Start() <= index && index + cfg.horizon < |x.candles|
    ensures var now := ObservationAt(cfg, x, index);
      && (now.Some? <==> Observes(cfg, x, index))
      && (now.Some? ==> now.value.index == index && ObservationTold(cfg, x, now.value))
  {
    WindowIsShown(cfg, x, index);
    var now := ObservationAt(cfg, x, index);
    if now.Some? {
      SignedReturn(now.value.entryPrice, now.value.exitPrice, now.value.reading.direction);
    }
  }

  ghost predicate ObservedAt(obs: seq<Observation>, index: nat) {
    exists k :: 0 <= k < |obs| && obs[k].index == index
  }

  /** The observations of the bars before `upTo`: one for each bar that observes, in bar order, each as told. */
  ghost predicate AllTold(cfg: Config, x: Inputs, upTo: nat, obs: seq<Observation>)
    requires upTo <= cfg.Start() || upTo + cfg.horizon <= |x.candles|
  {
    && (forall k :: 0 <= k < |obs| ==> cfg.Start() <= obs[k].index < upTo)
    && (forall j, k :: 0 <= j < k < |obs| ==> obs[j].index < obs[k].index)
    && (forall k {:trigger ObservationTold(cfg, x, obs[k])} :: 0 <= k < |obs| ==> ObservationTold(cfg, x, obs[k]))
    && (forall index: nat {:trigger ObservedAt(obs, index)} :: cfg.Start() <= index < upTo ==>
          (ObservedAt(obs, index) <==> Observes(cfg, x, index)))
  }

  lemma NothingAtBar(cfg: Config, x: Inputs, index: nat, obs: seq<Observation>)
    requires cfg.Start() <= index && index + cfg.horizon < |x.candles| && AllTold(cfg, x, index, obs)
    requires !Observes(cfg, x, index)
    ensures AllTold(cfg, x, index + 1, obs)
  {
    forall i: nat | cfg.Start() <= i < index + 1
      ensures ObservedAt(obs, i) <==> Observes(cfg, x, i)
    {
    }
  }

  lemma ObservedWithOneMore(obs: seq<Observation>, now: Observation, i: nat)
    ensures ObservedAt(obs + [now], i) <==> ObservedAt(obs, i) || now.index == i
  {
    assert (obs + [now])[|obs|] == now;
    if ObservedAt(obs, i) {
      var k :| 0 <= k < |obs| && obs[k].index == i;
      assert (obs + [now])[k] == obs[k];
    }
  }

  lemma OneMoreAtBar(cfg: Config, x: Inputs, index: nat, obs: seq<Observation>, now: Observation)
    requires cfg.Start() <= index && index + cfg.horizon < |x.candles| && AllTold(cfg, x, index, obs)
    requires now.index == index && ObservationTold(cfg, x, now)
    ensures AllTold(cfg, x, index + 1, obs + [now])
  {
    var all := obs + [now];
    forall k | 0 <= k < |all|
      ensures cfg.Start() <= all[k].index < index + 1 && ObservationTold(cfg, x, all[k])
    {
      if k < |obs| {
        assert ObservationTold(cfg, x, obs[k]);
      }
    }
    forall i: nat | cfg.Start() <= i < index + 1
      ensures ObservedAt(all, i) <==> Observes(cfg, x, i)
    {
      ObservedWithOneMore(obs, now, i);
    }
  }

  lemma StepIsTold(cfg: Config, x: Inputs, index: nat, before: seq<Observation>, after: seq<Observation>)
    requires ClosesInOrder(x.candles) && SortedFunding(x.funding)
    requires cfg.Start() <= index && index + cfg.horizon < |x.candles| && AllTold(cfg, x, index, before)
    requires var now := ObservationAt(cfg, x, index); after == if now.Some? then before + [now.value] else before
    ensures AllTold(cfg, x, index + 1, after)
  {
    var now := ObservationAt(cfg, x, index);
    BarIsTold(cfg, x, index);
    if now.Some? {
      OneMoreAtBar(cfg, x, index, before, now.value);
    } else {
      NothingAtBar(cfg, x, index, before);
    }
  }

  lemma LastBar(cfg: Config, x: Inputs, upTo: nat) returns (before: seq<Observation>, after: seq<Observation>)
    requires cfg.Start() < upTo && upTo + cfg.horizon <= |x.candles|
    ensures before == Observations(cfg, x, upTo - 1) && after == Observations(cfg, x, upTo)
    ensures var now := ObservationAt(cfg, x, upTo - 1); after == if now.Some? then before + [now.value] else before
  {
    before, after := Observations(cfg, x, upTo - 1), Observations(cfg, x, upTo);
  }

  /** Every observation of every study, from the prices and readings alone. */
  lemma {:induction false} ObservationsAreTold(cfg: Config, x: Inputs, upTo: nat)
    requires ClosesInOrder(x.candles) && SortedFunding(x.funding)
    requires upTo <= cfg.Start() || upTo + cfg.horizon <= |x.candles|
    ensures AllTold(cfg, x, upTo, Observations(cfg, x, upTo))
    decreases upTo
  {
    if upTo > cfg.Start() {
      var before, after := LastBar(cfg, x, upTo);
      ObservationsAreTold(cfg, x, upTo - 1);
      StepIsTold(cfg, x, upTo - 1, before, after);
    }
  }

  /** Unmarked observations at increasing bars from `start` up to `upTo`. */
  predicate InOrder(obs: seq<Observation>, start: nat, upTo: nat) {
    && (forall i :: 0 <= i < |obs| ==> start <= obs[i].index < upTo && !obs[i].independent)
    && (forall i, j :: 0 <= i < j < |obs| ==> obs[i].index < obs[j].index)
  }

  lemma {:induction false} ObservationsInOrder(cfg: Config, x: Inputs, upTo: nat)
    requires upTo <= cfg.Start() || upTo + cfg.horizon <= |x.candles|
    ensures InOrder(Observations(cfg, x, upTo), cfg.Start(), upTo)
  {
    if upTo > cfg.Start() {
      ObservationsInOrder(cfg, x, upTo - 1);
      var before, now := Observations(cfg, x, upTo - 1), ObservationAt(cfg, x, upTo - 1);
      StillInOrder(before, now, cfg.Start(), upTo);
    }
  }

  lemma StillInOrder(before: seq<Observation>, now: Option<Observation>, start: nat, upTo: nat)
    requires start < upTo && InOrder(before, start, upTo - 1)
    requires now.Some? ==> now.value.index == upTo - 1 && !now.value.independent
    ensures InOrder(if now.Some? then before + [now.value] else before, start, upTo)
  {
  }

  function Indices(obs: seq<Observation>): (r: seq<int>)
    ensures |r| == |obs| && forall i :: 0 <= i < |obs| ==> r[i] == obs[i].index
  {
    if obs == [] then [] else [obs[0].index as int] + Indices(obs[1..])
  }

  /** A mark is only ever set. */
  function MarkedAs(o: Observation, mark: bool): Observation {
    o.(independent := mark || o.independent)
  }

  function Marked(cfg: Config, obs: seq<Observation>): (r: seq<Observation>)
    ensures |r| == |obs|
    ensures forall i :: 0 <= i < |obs| ==> r[i] == MarkedAs(obs[i], S.Marks(Indices(obs), cfg.horizon, -1)[i])
  {
    var marks := S.Marks(Indices(obs), cfg.horizon, -1);
    seq(|obs|, i requires 0 <= i < |obs| => MarkedAs(obs[i], marks[i]))
  }

  /** One past the last bar whose forward window fits. */
  function Bound(cfg: Config, n: nat): nat {
    if n >= cfg.horizon then n - cfg.horizon else 0
  }

  function Studied(cfg: Config, x: Inputs): seq<Observation> {
    Marked(cfg, Observations(cfg, x, Bound(cfg, |x.candles|)))
  }

  // ---- the loops ------------------------------------------------------

  method MarkIndependent(cfg: Config, obs: seq<Observation>) returns (marked: seq<Observation>)
    ensures marked == Marked(cfg, obs)
  {
    marked := [];
    var next := -1;
    var i := 0;
    ghost var marks := S.Marks(Indices(obs), cfg.horizon, -1);
    while i < |obs|
      invariant 0 <= i <= |obs| == |marks| && |marked| == i
      invariant S.Marks(Indices(obs)[i..], cfg.horizon, next) == marks[i..]
      invariant forall k :: 0 <= k < i ==> marked[k] == MarkedAs(obs[k], marks[k])
    {
      assert Indices(obs)[i..][1..] == Indices(obs)[i + 1..];
      S.MarksUnfold(Indices(obs)[i..], cfg.horizon, next);
      assert marks[i..][0] == marks[i] && marks[i..][1..] == marks[i + 1..];
      if obs[i].index >= next {
        marked := marked + [obs[i].(independent := true)];
        next := obs[i].index + cfg.horizon;
      } else {
        marked := marked + [obs[i]];
      }
      i := i + 1;
    }
  }

  /** The study; `sufficient` is false when history is too short to evaluate a single bar. */
  method Run(cfg: Config, x: Inputs) returns (result: seq<Observation>, sufficient: bool)
    requires cfg.Valid()
    ensures result == Studied(cfg, x)
    ensures sufficient <==> |x.candles| > cfg.Start() + cfg.horizon
  {
    var start := cfg.Start();
    var last := |x.candles| - cfg.horizon;
    if last <= start {
      TooShortIsEmpty(cfg, x);
      return [], false;
    }
    var obs := Evaluate(cfg, x, last);
    result := MarkIndependent(cfg, obs);
    sufficient := true;
  }

  lemma TooShortIsEmpty(cfg: Config, x: Inputs)
    requires |x.candles| <= cfg.Start() + cfg.horizon
    ensures Studied(cfg, x) == []
  {
  }

  method Evaluate(cfg: Config, x: Inputs, last: nat) returns (obs: seq<Observation>)
    requires cfg.Start() < last && last + cfg.horizon <= |x.candles|
    ensures obs == Observations(cfg, x, last)
  {
    var start := cfg.Start();
    obs := [];
    var cursor := 0;
    var index := start;
    while index < last
      invariant start <= index <= last
      invariant cursor == if index == start then 0 else CursorAt(cfg, x, index - 1)
      invariant obs == Observations(cfg, x, index)
    {
      cursor := AdvanceCursor(x.funding, cursor, x.candles[index].closeTime);
      var now := Observe(cfg, x, index, cursor);
      if now.Some? {
        obs := obs + [now.value];
      }
      index := index + 1;
    }
  }

  method AdvanceCursor(funding: seq<FundingPoint>, from: nat, time: int) returns (cursor: nat)
    requires from <= |funding|
    ensures cursor == Advanced(funding, from, time)
  {
    cursor := from;
    while cursor < |funding| && funding[cursor].occurredAt <= time
      invariant from <= cursor <= |funding|
      invariant Advanced(funding, cursor, time) == Advanced(funding, from, time)
    {
      cursor := cursor + 1;
    }
  }

  method Observe(cfg: Config, x: Inputs, index: nat, cursor: nat) returns (now: Option<Observation>)
    requires cfg.Start() <= index && index + cfg.horizon < |x.candles| && cursor == CursorAt(cfg, x, index)
    ensures now == ObservationAt(cfg, x, index)
  {
    var bar := x.candles[index];
    var reading := cfg.evaluate(WindowAt(cfg, x, index, cursor));
    if reading == None || reading.value.direction == Flat {
      return None;
    }
    if bar.close <= 0.0 {
      return None;
    }
    now := Some(Observed(cfg, index, bar.closeTime, reading.value, bar.close, x.candles[index + cfg.horizon].close));
  }

  // ---- no look-ahead --------------------------------------------------

  /** Two histories a signal at `index` could not tell apart: same bars and open interest up to it,
      same funding settled by its close. The future may differ arbitrarily. */
  predicate SamePast(x: Inputs, y: Inputs, index: nat) {
    && index < |x.candles| && index < |y.candles|
    && x.candles[..index + 1] == y.candles[..index + 1]
    && FirstOf(x.openInterest, index + 1) == FirstOf(y.openInterest, index + 1)
    && SettledBy(x.funding, x.candles[index].closeTime) == SettledBy(y.funding, y.candles[index].closeTime)
  }

  predicate Ordered(x: Inputs) {
    ClosesInOrder(x.candles) && SortedFunding(x.funding)
  }

  /** A signal's window at a bar depends only on data up to that bar. */
  lemma WindowHasNoLookAhead(cfg: Config, x: Inputs, y: Inputs, index: nat)
    requires Ordered(x) && Ordered(y) && cfg.Start() <= index && SamePast(x, y, index)
    ensures WindowAt(cfg, x, index, CursorAt(cfg, x, index)) == WindowAt(cfg, y, index, CursorAt(cfg, y, index))
  {
    CursorIsFilter(cfg, x, index);
    CursorIsFilter(cfg, y, index);
    var lower := if index + 1 >= cfg.windowBars then index + 1 - cfg.windowBars else 0;
    assert x.candles[lower..index + 1] == x.candles[..index + 1][lower..];
    assert y.candles[lower..index + 1] == y.candles[..index + 1][lower..];
  }

  // ---- prefixes -------------------------------------------------------

  /** The observations of `y` at the bars whose forward window fits in it are those of `x`. */
  ghost predicate ObservesAlike(cfg: Config, x: Inputs, y: Inputs) {
    && |y.candles| <= |x.candles|
    && forall i: nat :: cfg.Start() <= i && i + cfg.horizon < |y.candles| ==> ObservationAt(cfg, y, i) == ObservationAt(cfg, x, i)
  }

  lemma {:induction false} ObservationsAlike(cfg: Config, x: Inputs, y: Inputs, upTo: nat)
    requires ObservesAlike(cfg, x, y) && (upTo <= cfg.Start() || upTo + cfg.horizon <= |y.candles|)
    ensures Observations(cfg, y, upTo) == Observations(cfg, x, upTo)
  {
    if upTo > cfg.Start() {
      ObservationsAlike(cfg, x, y, upTo - 1);
      OneMoreAlike(cfg, x, y, upTo);
    }
  }

  lemma OneMoreAlike(cfg: Config, x: Inputs, y: Inputs, upTo: nat)
    requires ObservesAlike(cfg, x, y) && cfg.Start() < upTo && upTo + cfg.horizon <= |y.candles|
    requires Observations(cfg, y, upTo - 1) == Observations(cfg, x, upTo - 1)
    ensures Observations(cfg, y, upTo) == Observations(cfg, x, upTo)
  {
    assert ObservationAt(cfg, y, upTo - 1) == ObservationAt(cfg, x, upTo - 1);
  }

  lemma {:induction false} ObservationsGrow(cfg: Config, x: Inputs, n: nat, m: nat)
    requires n <= m && (m <= cfg.Start() || m + cfg.horizon <= |x.candles|)
    ensures Observations(cfg, x, n) <= Observations(cfg, x, m)
    ensures forall i :: |Observations(cfg, x, n)| <= i < |Observations(cfg, x, m)| ==> Observations(cfg, x, m)[i].index >= n
    decreases m
  {
    if n < m {
      ObservationsGrow(cfg, x, n, m - 1);
    }
  }

  /** `short` is exactly the part of `full` whose forward windows fit in n bars, marks included. */
  predicate FitsIn(cfg: Config, short: seq<Observation>, full: seq<Observation>, n: nat) {
    && short <= full
    && (forall i :: 0 <= i < |short| ==> full[i].index + cfg.horizon < n)
    && (forall i :: |short| <= i < |full| ==> full[i].index + cfg.horizon >= n)
  }

  lemma AlikeStudiesFit(cfg: Config, x: Inputs, y: Inputs)
    requires cfg.Valid() && ObservesAlike(cfg, x, y)
    ensures FitsIn(cfg, Studied(cfg, y), Studied(cfg, x), |y.candles|)
  {
    var a, b := Bound(cfg, |y.candles|), Bound(cfg, |x.candles|);
    ObservationsAlike(cfg, x, y, a);
    ObservationsGrow(cfg, x, a, b);
    var short, full := Observations(cfg, x, a), Observations(cfg, x, b);
    assert Indices(short) == Indices(full)[..|short|];
    S.MarksOfPrefix(Indices(full), cfg.horizon, -1, |short|);
    ObservationsInOrder(cfg, x, a);
  }

  function PrefixInputs(x: Inputs, n: nat): Inputs
    requires n <= |x.candles|
  {
    x.(candles := x.candles[..n])
  }

  lemma {:induction false} CursorOnPrefix(cfg: Config, x: Inputs, n: nat, index: nat)
    requires cfg.Start() <= index < n <= |x.candles|
    ensures CursorAt(cfg, PrefixInputs(x, n), index) == CursorAt(cfg, x, index)
  {
    if index > cfg.Start() {
      CursorOnPrefix(cfg, x, n, index - 1);
    }
  }

  lemma ObservationOnPrefix(cfg: Config, x: Inputs, n: nat, index: nat)
    requires cfg.Start() <= index && index + cfg.horizon < n <= |x.candles|
    ensures ObservationAt(cfg, PrefixInputs(x, n), index) == ObservationAt(cfg, x, index)
  {
    CursorOnPrefix(cfg, x, n, index);
    var lower := if index + 1 >= cfg.windowBars then index + 1 - cfg.windowBars else 0;
    assert x.candles[..n][lower..index + 1] == x.candles[lower..index + 1];
  }

  /** Main prefix result: studying a prefix of the candles gives exactly the full study's observations whose
      forward window fits in the prefix, with exactly the full study's independence marks, in whatever order
      funding and closes come. */
  lemma PrefixStudyAgrees(cfg: Config, x: Inputs, n: nat)
    requires cfg.Valid() && n <= |x.candles|
    ensures FitsIn(cfg, Studied(cfg, PrefixInputs(x, n)), Studied(cfg, x), n)
  {
    var y := PrefixInputs(x, n);
    forall i: nat | cfg.Start() <= i && i + cfg.horizon < n
      ensures ObservationAt(cfg, y, i) == ObservationAt(cfg, x, i)
    {
      ObservationOnPrefix(cfg, x, n, i);
    }
    AlikeStudiesFit(cfg, x, y);
  }

  lemma ObservationOnSamePast(cfg: Config, x: Inputs, y: Inputs, index: nat)
    requires Ordered(x) && Ordered(y) && cfg.Start() <= index && index + cfg.horizon < |y.candles|
    requires SamePast(x, y, index) && SamePast(x, y, index + cfg.horizon)
    ensures ObservationAt(cfg, y, index) == ObservationAt(cfg, x, index)
  {
    WindowHasNoLookAhead(cfg, x, y, index);
    assert x.candles[..index + cfg.horizon + 1][index] == y.candles[..index + cfg.horizon + 1][index];
    assert x.candles[..index + cfg.horizon + 1][index + cfg.horizon] == y.candles[..index + cfg.horizon + 1][index + cfg.horizon];
  }

  /** The same for any shorter history the signal cannot tell from the full one at any of its bars: candles,
      funding and open interest may all be cut, or go on differently after them. */
  lemma SamePastStudyAgrees(cfg: Config, x: Inputs, y: Inputs)
    requires cfg.Valid() && Ordered(x) && Ordered(y) && |y.candles| <= |x.candles|
    requires forall i: nat :: i < |y.candles| ==> SamePast(x, y, i)
    ensures FitsIn(cfg, Studied(cfg, y), Studied(cfg, x), |y.candles|)
  {
    forall i: nat | cfg.Start() <= i && i + cfg.horizon < |y.candles|
      ensures ObservationAt(cfg, y, i) == ObservationAt(cfg, x, i)
    {
      ObservationOnSamePast(cfg, x, y, i);
    }
    AlikeStudiesFit(cfg, x, y);
  }

  /** A history cut at its n-th bar: nothing of any series that was not known by that bar's close. */
  function CutAt(x: Inputs, n: nat): Inputs
    requires 0 < n <= |x.candles|
  {
    Inputs(x.candles[..n], SettledBy(x.funding, x.candles[n - 1].closeTime), FirstOf(x.openInterest, n))
  }

  lemma {:induction false} SettledIsSorted(funding: seq<FundingPoint>, time: int)
    requires SortedFunding(funding)
    ensures SortedFunding(SettledBy(funding, time)) && forall p :: p in SettledBy(funding, time) ==> p in funding
  {
    if funding != [] {
      var front, last := funding[..|funding| - 1], funding[|funding| - 1];
      SettledIsSorted(front, time);
      var settled := SettledBy(front, time);
      forall i | 0 <= i < |settled|
        ensures settled[i].occurredAt <= last.occurredAt
      {
        assert settled[i] in settled;
      }
    }
  }

  lemma {:induction false} SettledTwice(funding: seq<FundingPoint>, early: int, late: int)
    requires early <= late
    ensures SettledBy(SettledBy(funding, late), early) == SettledBy(funding, early)
  {
    if funding != [] {
      var front, last := funding[..|funding| - 1], funding[|funding| - 1];
      SettledTwice(front, early, late);
      var settled := SettledBy(front, late);
      if last.occurredAt <= late {
        assert (settled + [last])[..|settled|] == settled;
      } else {
        assert settled + [] == settled;
        assert SettledBy(front, early) + [] == SettledBy(front, early);
      }
    }
  }

  /** In particular a history with every series cut at one bar. */
  lemma CutStudyAgrees(cfg: Config, x: Inputs, n: nat)
    requires cfg.Valid() && Ordered(x) && 0 < n <= |x.candles|
    ensures FitsIn(cfg, Studied(cfg, CutAt(x, n)), Studied(cfg, x), n)
  {
    var y := CutAt(x, n);
    SettledIsSorted(x.funding, x.candles[n - 1].closeTime);
    forall i: nat | i < n
      ensures SamePast(x, y, i)
    {
      SettledTwice(x.funding, x.candles[i].closeTime, x.candles[n - 1].closeTime);
      assert x.candles[..n][..i + 1] == x.candles[..i + 1];
      if |x.openInterest| > n {
        assert x.openInterest[..n][..i + 1] == x.openInterest[..i + 1];
      }
    }
    SamePastStudyAgrees(cfg, x, y);
  }

  /** The independent subsample is a largest possible one: no choice of observations pairwise
      a horizon apart has more members. */
  lemma IndependentSampleIsMaximum(cfg: Config, x: Inputs, picks: seq<bool>)
    requires cfg.Valid()
    requires var obs := Observations(cfg, x, Bound(cfg, |x.candles|)); S.Spaced(Indices(obs), picks, cfg.horizon)
    ensures var obs := Observations(cfg, x, Bound(cfg, |x.candles|)); var taken := IndependentOf(Studied(cfg, x));
      && S.Spaced(Indices(obs), taken, cfg.horizon)
      && S.Chosen(picks) <= S.Chosen(taken)
  {
    var obs := Observations(cfg, x, Bound(cfg, |x.candles|));
    ObservationsInOrder(cfg, x, Bound(cfg, |x.candles|));
    S.GreedyIsMaximum(Indices(obs), cfg.horizon, picks);
    assert IndependentOf(Studied(cfg, x)) == S.Marks(Indices(obs), cfg.horizon, -1);
  }

  function IndependentOf(obs: seq<Observation>): (flags: seq<bool>)
    ensures |flags| == |obs| && forall i :: 0 <= i < |obs| ==> flags[i] == obs[i].independent
  {
    seq(|obs|, i requires 0 <= i < |obs| => obs[i].independent)
  }
}
