/** Cross-sectional momentum: rank symbols by trailing return on one calendar and hold the spread. */
module CrossSection {
  import opened Schemas
  import S = Sampling

  datatype Close = Close(day: int, price: real)

  datatype Listing = Listing(symbol: Symbol, series: seq<Close>)

  /** Ranked by trailing return, then symbol. */
  datatype Entry = Entry(past: real, symbol: Symbol)

  datatype Observation = Observation(index: nat, longs: seq<Symbol>, shorts: seq<Symbol>, gross: real, net: real)

  datatype Params = Params(lookback: nat, horizon: nat, quantile: real, cost: real, minSymbols: int)
  {
    /** Degenerate parameters are refused. */
    predicate Valid() {
      lookback >= 1 && horizon >= 1 && 0.0 < quantile <= 0.5
    }
  }

  // ---- strict orders --------------------------------------------------

  predicate Before(a: string, b: string) {
    if b == "" then false
    else if a == "" then true
    else if a[0] != b[0] then a[0] < b[0]
    else Before(a[1..], b[1..])
  }

  lemma {:induction false} BeforeIsStrict(a: string, b: string)
    ensures !(Before(a, b) && Before(b, a))
    ensures a != b <==> Before(a, b) || Before(b, a)
    decreases |a|
  {
    if a != "" && b != "" {
      BeforeIsStrict(a[1..], b[1..]);
      assert a == [a[0]] + a[1..] && b == [b[0]] + b[1..];
    }
  }

  lemma {:induction false} BeforeIsTransitive(a: string, b: string, c: string)
    requires Before(a, b) && Before(b, c)
    ensures Before(a, c)
    decreases |a|
  {
    if a != "" && a[0] == b[0] && b[0] == c[0] {
      BeforeIsTransitive(a[1..], b[1..], c[1..]);
    }
  }

  predicate Lower(x: Entry, y: Entry) {
    x.past < y.past || (x.past == y.past && Before(x.symbol, y.symbol))
  }

  lemma LowerIsStrict(x: Entry, y: Entry)
    ensures !(Lower(x, y) && Lower(y, x))
    ensures x != y <==> Lower(x, y) || Lower(y, x)
  {
    BeforeIsStrict(x.symbol, y.symbol);
  }

  lemma LowerIsTransitive(x: Entry, y: Entry, z: Entry)
    requires Lower(x, y) && Lower(y, z)
    ensures Lower(x, z)
  {
    if x.past == y.past && y.past == z.past {
      BeforeIsTransitive(x.symbol, y.symbol, z.symbol);
    }
  }

  predicate Ranked(entries: seq<Entry>) {
    forall i, j :: 0 <= i < j < |entries| ==> Lower(entries[i], entries[j])
  }

  /** `list.sort()` on tuples, by insertion. */
  function Placed(entries: seq<Entry>, e: Entry): seq<Entry> {
    if entries == [] then [e]
    else if Lower(e, entries[0]) then [e] + entries
    else [entries[0]] + Placed(entries[1..], e)
  }

  lemma {:induction false} PlacedIsRanked(entries: seq<Entry>, e: Entry)
    requires Ranked(entries) && e !in entries
    ensures Ranked(Placed(entries, e)) && |Placed(entries, e)| == |entries| + 1
    ensures forall x :: x in Placed(entries, e) <==> x == e || x in entries
  {
    if entries != [] {
      var head, tail := entries[0], entries[1..];
      LowerIsStrict(e, head);
      if Lower(e, head) {
        forall j | 0 <= j < |entries|
          ensures Lower(e, entries[j])
        {
          if j > 0 {
            LowerIsTransitive(e, head, entries[j]);
          }
        }
      } else {
        PlacedIsRanked(tail, e);
        var rest := Placed(tail, e);
        assert entries == [head] + tail;
        forall j | 0 <= j < |rest|
          ensures Lower(head, rest[j])
        {
          assert rest[j] in rest;
          if rest[j] != e {
            var k :| 0 <= k < |tail| && tail[k] == rest[j];
            assert entries[k + 1] == rest[j];
          }
        }
      }
    }
  }

  lemma SomeMember<T>(s: seq<T>)
    requires s != []
    ensures exists x :: x in s
  {
    assert s[0] in s;
  }

  /** Two rankings of the same entries are the same list. */
  lemma {:induction false} RankingIsUnique(a: seq<Entry>, b: seq<Entry>)
    requires Ranked(a) && Ranked(b) && forall x :: x in a <==> x in b
    ensures a == b
    decreases |a|
  {
    if a == [] {
      if b != [] {
        SomeMember(b);
      }
    } else {
      assert a[0] in a && a[0] in b;
      assert b[0] in b && b[0] in a;
      var i :| 0 <= i < |b| && b[i] == a[0];
      var j :| 0 <= j < |a| && a[j] == b[0];
      LowerIsStrict(a[0], b[0]);
      assert a[0] == b[0];
      forall x
        ensures x in a[1..] <==> x in b[1..]
      {
        TailMembers(a, x);
        TailMembers(b, x);
      }
      RankingIsUnique(a[1..], b[1..]);
    }
  }

  lemma TailMembers(a: seq<Entry>, x: Entry)
    requires a != [] && Ranked(a)
    ensures x in a[1..] <==> x in a && x != a[0]
  {
    if x in a && x != a[0] {
      var i :| 0 <= i < |a| && a[i] == x;
      assert a[1..][i - 1] == x;
    }
    if x in a[1..] {
      var i :| 0 <= i < |a| - 1 && a[1..][i] == x;
      assert a[i + 1] == x;
      LowerIsStrict(a[0], a[i + 1]);
    }
  }

  // ---- the calendar ---------------------------------------------------

  /** Date to close, later entries overriding; non-positive closes are skipped. */
  function Prices(series: seq<Close>): map<int, real> {
    if series == [] then map[]
    else
      var before := Prices(series[..|series| - 1]);
      var c := series[|series| - 1];
      if c.price > 0.0 then before[c.day := c.price] else before
  }

  lemma {:induction false} PricesArePositive(series: seq<Close>)
    ensures forall d :: d in Prices(series) ==> Prices(series)[d] > 0.0
  {
    if series != [] {
      PricesArePositive(series[..|series| - 1]);
    }
  }

  function AddDay(days: seq<int>, d: int): seq<int> {
    if days == [] then [d]
    else if d < days[0] then [d] + days
    else if d == days[0] then days
    else [days[0]] + AddDay(days[1..], d)
  }

  predicate Ascending(days: seq<int>) {
    forall i, j :: 0 <= i < j < |days| ==> days[i] < days[j]
  }

  lemma {:induction false} AddDayMembers(days: seq<int>, d: int, x: int)
    ensures x in AddDay(days, d) <==> x == d || x in days
  {
    if days != [] {
      assert days == [days[0]] + days[1..];
      AddDayMembers(days[1..], d, x);
    }
  }

  lemma {:induction false} AddDayAscends(days: seq<int>, d: int)
    requires Ascending(days)
    ensures Ascending(AddDay(days, d))
  {
    if days != [] && d > days[0] {
      var tail, rest := days[1..], AddDay(days[1..], d);
      AddDayAscends(tail, d);
      forall j | 0 <= j < |rest|
        ensures days[0] < rest[j]
      {
        AddDayMembers(tail, d, rest[j]);
        assert rest[j] in rest;
        if rest[j] != d {
          var k :| 0 <= k < |tail| && tail[k] == rest[j];
          assert days[k + 1] == rest[j];
        }
      }
    }
  }

  /** Every day on which some symbol has a positive close, ascending. */
  function CalendarOf(series: seq<Close>, days: seq<int>): seq<int> {
    if series == [] then days
    else
      var c := series[|series| - 1];
      var before := CalendarOf(series[..|series| - 1], days);
      if c.price > 0.0 then AddDay(before, c.day) else before
  }

  function Calendar(universe: seq<Listing>): seq<int> {
    if universe == [] then []
    else CalendarOf(universe[|universe| - 1].series, Calendar(universe[..|universe| - 1]))
  }

  lemma {:induction false} CalendarOfAscends(series: seq<Close>, days: seq<int>)
    requires Ascending(days)
    ensures Ascending(CalendarOf(series, days))
    ensures forall d :: d in CalendarOf(series, days) <==> d in days || d in Prices(series)
  {
    if series != [] {
      CalendarOfAscends(series[..|series| - 1], days);
      var c := series[|series| - 1];
      if c.price > 0.0 {
        var before := CalendarOf(series[..|series| - 1], days);
        AddDayAscends(before, c.day);
        forall d
          ensures d in AddDay(before, c.day) <==> d == c.day || d in before
        {
          AddDayMembers(before, c.day, d);
        }
      }
    }
  }

  /** Some symbol has a positive close on this day. */
  ghost predicate TradedOn(universe: seq<Listing>, d: int) {
    exists l :: l in universe && d in Prices(l.series)
  }

  lemma {:induction false} CalendarIsUnion(universe: seq<Listing>)
    ensures Ascending(Calendar(universe))
    ensures forall d :: d in Calendar(universe) <==> TradedOn(universe, d)
  {
    if universe != [] {
      var before, l := universe[..|universe| - 1], universe[|universe| - 1];
      CalendarIsUnion(before);
      CalendarOfAscends(l.series, Calendar(before));
      assert universe == before + [l];
      forall d
        ensures TradedOn(universe, d) <==> TradedOn(before, d) || d in Prices(l.series)
      {
        if d in Prices(l.series) {
          assert l in universe;
        }
      }
    }
  }

  lemma {:induction false} AscendingIsUnique(a: seq<int>, b: seq<int>)
    requires Ascending(a) && Ascending(b) && forall x :: x in a <==> x in b
    ensures a == b
    decreases |a|
  {
    if a == [] {
      if b != [] {
        SomeMember(b);
      }
    } else {
      assert a[0] in a && a[0] in b;
      assert b[0] in b && b[0] in a;
      var i :| 0 <= i < |b| && b[i] == a[0];
      var j :| 0 <= j < |a| && a[j] == b[0];
      assert a[0] == b[0];
      forall x
        ensures x in a[1..] <==> x in b[1..]
      {
        if x in a[1..] {
          var k :| 0 <= k < |a| - 1 && a[1..][k] == x;
          assert a[k + 1] == x && x in a && x in b;
          var m :| 0 <= m < |b| && b[m] == x;
          assert b[1..][m - 1] == x;
        }
        if x in b[1..] {
          var k :| 0 <= k < |b| - 1 && b[1..][k] == x;
          assert b[k + 1] == x && x in b && x in a;
          var m :| 0 <= m < |a| && a[m] == x;
          assert a[1..][m - 1] == x;
        }
      }
      AscendingIsUnique(a[1..], b[1..]);
    }
  }

  // ---- one rebalance --------------------------------------------------

  datatype Dates = Dates(past: int, entry: int, exit: int)

  predicate Eligible(l: Listing, t: Dates) {
    var p := Prices(l.series);
    t.past in p && t.entry in p && t.exit in p
  }

  function Trailing(l: Listing, t: Dates): real
    requires Eligible(l, t)
  {
    var p := Prices(l.series);
    PricesArePositive(l.series);
    Change(p[t.past], p[t.entry])
  }

  function Forward(l: Listing, t: Dates): real
    requires Eligible(l, t)
  {
    var p := Prices(l.series);
    PricesArePositive(l.series);
    Change(p[t.entry], p[t.exit])
  }

  /** Fractional change. */
  function Change(a: real, b: real): real
    requires a > 0.0
  {
    (b - a) / a
  }

  function Ranking(universe: seq<Listing>, t: Dates): seq<Entry> {
    if universe == [] then []
    else
      var l := universe[|universe| - 1];
      var before := Ranking(universe[..|universe| - 1], t);
      if Eligible(l, t) then Placed(before, Entry(Trailing(l, t), l.symbol)) else before
  }

  function Forwards(universe: seq<Listing>, t: Dates): map<Symbol, real> {
    if universe == [] then map[]
    else
      var l := universe[|universe| - 1];
      var before := Forwards(universe[..|universe| - 1], t);
      if Eligible(l, t) then before[l.symbol := Forward(l, t)] else before
  }

  predicate DistinctSymbols(universe: seq<Listing>) {
    forall i, j :: 0 <= i < j < |universe| ==> universe[i].symbol != universe[j].symbol
  }

  lemma DistinctFront(universe: seq<Listing>)
    requires universe != [] && DistinctSymbols(universe)
    ensures DistinctSymbols(universe[..|universe| - 1])
    ensures forall m :: m in universe[..|universe| - 1] ==> m.symbol != universe[|universe| - 1].symbol
    ensures forall m :: m in universe <==> m in universe[..|universe| - 1] || m == universe[|universe| - 1]
  {
  }

  /** The entry of an eligible listing. */
  ghost predicate EntryOf(universe: seq<Listing>, t: Dates, e: Entry) {
    exists l :: l in universe && Eligible(l, t) && e == Entry(Trailing(l, t), l.symbol)
  }

  lemma {:induction false} RankingMembers(universe: seq<Listing>, t: Dates)
    requires DistinctSymbols(universe)
    ensures Ranked(Ranking(universe, t))
    ensures forall e :: e in Ranking(universe, t) <==> EntryOf(universe, t, e)
  {
    if universe != [] {
      var before, l := universe[..|universe| - 1], universe[|universe| - 1];
      DistinctFront(universe);
      RankingMembers(before, t);
      forall e
        ensures EntryOf(universe, t, e)
                <==> EntryOf(before, t, e) || (Eligible(l, t) && e == Entry(Trailing(l, t), l.symbol))
      {
      }
      if Eligible(l, t) {
        PlacedIsRanked(Ranking(before, t), Entry(Trailing(l, t), l.symbol));
      }
    }
  }

  lemma {:induction false} ForwardOf(universe: seq<Listing>, t: Dates, l: Listing)
    requires DistinctSymbols(universe) && l in universe && Eligible(l, t)
    ensures l.symbol in Forwards(universe, t) && Forwards(universe, t)[l.symbol] == Forward(l, t)
  {
    DistinctFront(universe);
    if l != universe[|universe| - 1] {
      ForwardOf(universe[..|universe| - 1], t, l);
    }
  }

  function Symbols(entries: seq<Entry>): (r: seq<Symbol>)
    ensures |r| == |entries| && forall i :: 0 <= i < |r| ==> r[i] == entries[i].symbol
  {
    seq(|entries|, i requires 0 <= i < |entries| => entries[i].symbol)
  }

  function TakeCount(n: nat, quantile: real): (k: nat)
    requires 0.0 < quantile <= 0.5
    ensures k >= 1 && (n >= 1 ==> k <= n) && (n >= 2 ==> 2 * k <= n)
  {
    var share := n as real * quantile;
    assert 0.0 <= share <= n as real * 0.5;
    if share.Floor > 1 then share.Floor else 1
  }

  function SumOf(symbols: seq<Symbol>, forwards: map<Symbol, real>): real {
    if symbols == [] then 0.0
    else
      SumOf(symbols[..|symbols| - 1], forwards)
      + if symbols[|symbols| - 1] in forwards then forwards[symbols[|symbols| - 1]] else 0.0
  }

  function Mean(symbols: seq<Symbol>, forwards: map<Symbol, real>): real
    requires symbols != []
  {
    SumOf(symbols, forwards) / |symbols| as real
  }

  function Legs(ranking: seq<Entry>, quantile: real): (legs: (seq<Symbol>, seq<Symbol>))
    requires ranking != [] && 0.0 < quantile <= 0.5
    ensures legs.0 != [] && legs.1 != []
  {
    var take := TakeCount(|ranking|, quantile);
    (Symbols(ranking[|ranking| - take..]), Symbols(ranking[..take]))
  }

  function DatesAt(p: Params, calendar: seq<int>, index: nat): Dates
    requires p.lookback <= index && index + p.horizon < |calendar|
  {
    Dates(calendar[index - p.lookback], calendar[index], calendar[index + p.horizon])
  }

  function Rebalanced(p: Params, ranking: seq<Entry>, forwards: map<Symbol, real>, index: nat): Option<Observation>
    requires p.Valid()
  {
    if |ranking| < p.minSymbols || ranking == [] then None
    else
      var (longs, shorts) := Legs(ranking, p.quantile);
      var gross := Mean(longs, forwards) - Mean(shorts, forwards);
      Some(Observation(index, longs, shorts, gross, gross - p.cost))
  }

  function ObservedAt(p: Params, universe: seq<Listing>, index: nat): Option<Observation>
    requires p.Valid() && p.lookback <= index && index + p.horizon < |Calendar(universe)|
  {
    var t := DatesAt(p, Calendar(universe), index);
    Rebalanced(p, Ranking(universe, t), Forwards(universe, t), index)
  }

  /** Observations of the calendar days from the lookback up to `upTo`. */
  function Observed(p: Params, universe: seq<Listing>, upTo: nat): seq<Observation>
    requires p.Valid() && (upTo <= p.lookback || upTo + p.horizon <= |Calendar(universe)|)
  {
    if upTo <= p.lookback then []
    else
      var before := Observed(p, universe, upTo - 1);
      var now := ObservedAt(p, universe, upTo - 1);
      if now.Some? then before + [now.value] else before
  }

  function Bound(p: Params, n: nat): nat {
    if n >= p.horizon then n - p.horizon else 0
  }

  function Study(p: Params, universe: seq<Listing>): seq<Observation>
    requires p.Valid()
  {
    Observed(p, universe, Bound(p, |Calendar(universe)|))
  }

  function Indices(obs: seq<Observation>): (r: seq<int>)
    ensures |r| == |obs| && forall i :: 0 <= i < |obs| ==> r[i] == obs[i].index
  {
    if obs == [] then [] else Indices(obs[..|obs| - 1]) + [obs[|obs| - 1].index as int]
  }

  lemma MarksWithOneMore(obs: seq<Observation>, o: Observation, horizon: nat)
    ensures var after := S.NextAfter(Indices(obs), horizon, -1);
      && S.Marks(Indices(obs + [o]), horizon, -1) == S.Marks(Indices(obs), horizon, -1) + [o.index >= after]
      && S.NextAfter(Indices(obs + [o]), horizon, -1) == if o.index >= after then o.index + horizon else after
  {
    S.MarksExtend(Indices(obs), o.index, horizon, -1);
    assert (obs + [o])[..|obs|] == obs;
  }

  /** A date on which nothing ranks and the minimum lets that through: its legs have no mean. */
  predicate EmptyLegsAt(p: Params, universe: seq<Listing>, index: nat)
    requires p.Valid() && p.lookback <= index && index + p.horizon < |Calendar(universe)|
  {
    p.minSymbols <= 0 && Ranking(universe, DatesAt(p, Calendar(universe), index)) == []
  }

  /** No date before `upTo` has empty legs. */
  predicate LegsBefore(p: Params, universe: seq<Listing>, upTo: nat)
    requires p.Valid() && (upTo <= p.lookback || upTo + p.horizon <= |Calendar(universe)|)
  {
    forall index: nat :: p.lookback <= index < upTo ==> !EmptyLegsAt(p, universe, index)
  }

  predicate EmptyLegs(p: Params, universe: seq<Listing>)
    requires p.Valid()
  {
    !LegsBefore(p, universe, Bound(p, |Calendar(universe)|))
  }

  lemma NextDate(p: Params, universe: seq<Listing>, index: nat)
    requires p.Valid() && p.lookback <= index && index + p.horizon < |Calendar(universe)|
    ensures LegsBefore(p, universe, index + 1) <==> LegsBefore(p, universe, index) && !EmptyLegsAt(p, universe, index)
    ensures Observed(p, universe, index + 1)
            == Observed(p, universe, index) + Reported(ObservedAt(p, universe, index))
  {
  }

  function Reported(now: Option<Observation>): seq<Observation> {
    if now.Some? then [now.value] else []
  }

  lemma EmptyStays(p: Params, universe: seq<Listing>, index: nat, last: nat)
    requires p.Valid() && p.lookback <= index < last && last + p.horizon <= |Calendar(universe)|
    requires EmptyLegsAt(p, universe, index)
    ensures !LegsBefore(p, universe, last)
  {
  }

  /** The two ways a study ends in an exception, or its observations and independence marks. */
  datatype Studied = Degenerate | NoMean | Observations(obs: seq<Observation>, marks: seq<bool>)

  method CrossSectionalMomentum(p: Params, universe: seq<Listing>) returns (result: Studied)
    requires DistinctSymbols(universe)
    ensures result.Degenerate? <==> !p.Valid()
    ensures p.Valid() ==> (result.NoMean? <==> EmptyLegs(p, universe))
    ensures result.Observations? ==>
      && result.obs == Study(p, universe)
      && result.marks == S.Marks(Indices(Study(p, universe)), p.horizon, -1)
  {
    if !p.Valid() {
      return Degenerate;
    }
    result := Scan(p, universe, Calendar(universe));
  }

  /** What the loop carries from date to date. */
  datatype Progress = Progress(obs: seq<Observation>, marks: seq<bool>, next: int)

  /** The progress of the dates before `index`, none of which had empty legs. */
  predicate At(p: Params, universe: seq<Listing>, index: nat, now: Progress)
    requires p.Valid() && (index <= p.lookback || index + p.horizon <= |Calendar(universe)|)
  {
    && LegsBefore(p, universe, index) && now.obs == Observed(p, universe, index)
    && now.marks == S.Marks(Indices(now.obs), p.horizon, -1)
    && now.next == S.NextAfter(Indices(now.obs), p.horizon, -1)
  }

  method Scan(p: Params, universe: seq<Listing>, calendar: seq<int>) returns (result: Studied)
    requires p.Valid() && calendar == Calendar(universe)
    ensures !result.Degenerate? && (result.NoMean? <==> EmptyLegs(p, universe))
    ensures result.Observations? ==>
      result.obs == Study(p, universe) && result.marks == S.Marks(Indices(result.obs), p.horizon, -1)
  {
    var last := Bound(p, |calendar|);
    var sofar := Progress([], [], -1);
    var index := p.lookback;
    while index < last
      invariant p.lookback <= index && (index <= last || index == p.lookback)
      invariant At(p, universe, index, sofar)
    {
      var next := Advance(p, universe, calendar, index, sofar);
      if next == None {
        EmptyStays(p, universe, index, last);
        return NoMean;
      }
      sofar := next.value;
      index := index + 1;
    }
    NothingMore(p, universe, index, sofar);
    return Observations(sofar.obs, sofar.marks);
  }

  lemma NothingMore(p: Params, universe: seq<Listing>, index: nat, sofar: Progress)
    requires p.Valid() && (index <= p.lookback || index + p.horizon <= |Calendar(universe)|)
    requires var last := Bound(p, |Calendar(universe)|); index == last || (index == p.lookback && last <= index)
    requires At(p, universe, index, sofar)
    ensures !EmptyLegs(p, universe) && sofar.obs == Study(p, universe)
  {
  }

  /** One date of the loop; None when its legs are empty. */
  method Advance(p: Params, universe: seq<Listing>, calendar: seq<int>, index: nat, sofar: Progress)
    returns (next: Option<Progress>)
    requires p.Valid() && calendar == Calendar(universe) && p.lookback <= index && index + p.horizon < |calendar|
    requires At(p, universe, index, sofar)
    ensures next == None <==> EmptyLegsAt(p, universe, index)
    ensures next.Some? ==> At(p, universe, index + 1, next.value)
  {
    var now, empty := Observe(p, universe, calendar, index);
    if empty {
      return None;
    }
    NextDate(p, universe, index);
    var obs, marks, after := Recorded(p.horizon, sofar.obs, sofar.marks, sofar.next, now);
    return Some(Progress(obs, marks, after));
  }

  /** Report an observation with its mark, if there is one. */
  method Recorded(horizon: nat, obs: seq<Observation>, marks: seq<bool>, next: int, now: Option<Observation>)
    returns (obs': seq<Observation>, marks': seq<bool>, next': int)
    requires marks == S.Marks(Indices(obs), horizon, -1) && next == S.NextAfter(Indices(obs), horizon, -1)
    ensures obs' == obs + Reported(now)
    ensures marks' == S.Marks(Indices(obs'), horizon, -1) && next' == S.NextAfter(Indices(obs'), horizon, -1)
  {
    obs', marks', next' := obs, marks, next;
    if now.Some? {
      MarksWithOneMore(obs, now.value, horizon);
      obs' := obs + [now.value];
      marks' := marks + [now.value.index >= next];
      if now.value.index >= next {
        next' := now.value.index + horizon;
      }
    } else {
      assert obs + [] == obs;
    }
  }

  method Observe(p: Params, universe: seq<Listing>, calendar: seq<int>, index: nat)
    returns (now: Option<Observation>, empty: bool)
    requires p.Valid() && calendar == Calendar(universe) && p.lookback <= index && index + p.horizon < |calendar|
    ensures now == ObservedAt(p, universe, index) && (empty <==> EmptyLegsAt(p, universe, index))
  {
    now, empty := Rebalance(p, universe, DatesAt(p, calendar, index), index);
  }

  method Rebalance(p: Params, universe: seq<Listing>, t: Dates, index: nat) returns (now: Option<Observation>, empty: bool)
    requires p.Valid()
    ensures now == Rebalanced(p, Ranking(universe, t), Forwards(universe, t), index)
    ensures empty <==> p.minSymbols <= 0 && Ranking(universe, t) == []
  {
    var ranking: seq<Entry> := [];
    var forwards: map<Symbol, real> := map[];
    var i := 0;
    while i < |universe|
      invariant 0 <= i <= |universe|
      invariant ranking == Ranking(universe[..i], t) && forwards == Forwards(universe[..i], t)
    {
      var l := universe[i];
      assert universe[..i + 1][..i] == universe[..i];
      if Eligible(l, t) {
        ranking := Placed(ranking, Entry(Trailing(l, t), l.symbol));
        forwards := forwards[l.symbol := Forward(l, t)];
      }
      i := i + 1;
    }
    assert universe[..i] == universe;
    now, empty := Rebalanced(p, ranking, forwards, index), p.minSymbols <= 0 && ranking == [];
  }

  // ---- no calendar artefact -------------------------------------------

  lemma ChangeIgnoresScale(k: real, a: real, b: real, a': real, b': real)
    requires k > 0.0 && a > 0.0 && a' == k * a && b' == k * b
    ensures a' > 0.0 && Change(a', b') == Change(a, b)
  {
    var c := (b - a) / a;
    assert c * a == b - a;
    assert c * a' == k * (c * a);
    assert k * (b - a) == b' - a';
    QuotientOf(b' - a', a', c);
  }

  lemma QuotientOf(n: real, d: real, q: real)
    requires d > 0.0 && q * d == n
    ensures n / d == q
  {
  }

  /** Every symbol follows one common path up to its own scale, on whatever days it is listed. */
  ghost predicate OnePath(universe: seq<Listing>, path: int -> real, scale: Symbol -> real) {
    forall l, d :: l in universe && d in Prices(l.series) ==>
      scale(l.symbol) > 0.0 && path(d) > 0.0 && Prices(l.series)[d] == scale(l.symbol) * path(d)
  }

  lemma ForwardOnPath(universe: seq<Listing>, path: int -> real, scale: Symbol -> real, l: Listing, t: Dates)
    requires OnePath(universe, path, scale) && l in universe && Eligible(l, t)
    ensures path(t.entry) > 0.0 && Forward(l, t) == Change(path(t.entry), path(t.exit))
  {
    var q := Prices(l.series);
    assert t.entry in q && t.exit in q;
    ChangeIgnoresScale(scale(l.symbol), path(t.entry), path(t.exit), q[t.entry], q[t.exit]);
  }

  lemma {:induction false} SumOfConstant(symbols: seq<Symbol>, forwards: map<Symbol, real>, v: real)
    requires forall i :: 0 <= i < |symbols| ==> symbols[i] in forwards && forwards[symbols[i]] == v
    ensures SumOf(symbols, forwards) == |symbols| as real * v
  {
    if symbols != [] {
      SumOfConstant(symbols[..|symbols| - 1], forwards, v);
      OneMore(|symbols| as real - 1.0, v);
    }
  }

  lemma OneMore(n: real, v: real)
    ensures n * v + v == (n + 1.0) * v
  {
  }

  lemma MeanOfConstant(symbols: seq<Symbol>, forwards: map<Symbol, real>, v: real)
    requires symbols != [] && forall i :: 0 <= i < |symbols| ==> symbols[i] in forwards && forwards[symbols[i]] == v
    ensures Mean(symbols, forwards) == v
  {
    SumOfConstant(symbols, forwards, v);
    assert |symbols| as real * v / |symbols| as real == v;
  }

  lemma RankedForward(universe: seq<Listing>, path: int -> real, scale: Symbol -> real, t: Dates, i: nat)
    requires DistinctSymbols(universe) && OnePath(universe, path, scale) && i < |Ranking(universe, t)|
    ensures var s := Ranking(universe, t)[i].symbol;
      && path(t.entry) > 0.0 && s in Forwards(universe, t)
      && Forwards(universe, t)[s] == Change(path(t.entry), path(t.exit))
  {
    var e := Ranking(universe, t)[i];
    RankingMembers(universe, t);
    assert e in Ranking(universe, t) && EntryOf(universe, t, e);
    var l :| l in universe && Eligible(l, t) && e == Entry(Trailing(l, t), l.symbol);
    ForwardOf(universe, t, l);
    ForwardOnPath(universe, path, scale, l, t);
  }

  lemma RebalanceOnPathIsFlat(p: Params, universe: seq<Listing>, path: int -> real, scale: Symbol -> real, t: Dates, index: nat)
    requires p.Valid() && DistinctSymbols(universe) && OnePath(universe, path, scale)
    ensures var now := Rebalanced(p, Ranking(universe, t), Forwards(universe, t), index);
      now.Some? ==> now.value.gross == 0.0
  {
    var ranking, forwards := Ranking(universe, t), Forwards(universe, t);
    if ranking != [] {
      RankedForward(universe, path, scale, t, 0);
      var v := Change(path(t.entry), path(t.exit));
      forall i | 0 <= i < |ranking|
        ensures ranking[i].symbol in forwards && forwards[ranking[i].symbol] == v
      {
        RankedForward(universe, path, scale, t, i);
      }
      var (longs, shorts) := Legs(ranking, p.quantile);
      MeanOfConstant(longs, forwards, v);
      MeanOfConstant(shorts, forwards, v);
    }
  }

  lemma {:induction false} ObservedOnPath(p: Params, universe: seq<Listing>, path: int -> real, scale: Symbol -> real, upTo: nat)
    requires p.Valid() && DistinctSymbols(universe) && OnePath(universe, path, scale)
    requires upTo <= p.lookback || upTo + p.horizon <= |Calendar(universe)|
    ensures forall i :: 0 <= i < |Observed(p, universe, upTo)| ==> Observed(p, universe, upTo)[i].gross == 0.0
  {
    if upTo > p.lookback {
      ObservedOnPath(p, universe, path, scale, upTo - 1);
      RebalanceOnPathIsFlat(p, universe, path, scale, DatesAt(p, Calendar(universe), upTo - 1), upTo - 1);
    }
  }

  /** Main result: when all symbols move together there is nothing to rank, and the study reports exactly zero
      gross spread on every date, whatever the listing dates and gaps: no signal from misalignment. */
  lemma CommonPathHasNoSpread(p: Params, universe: seq<Listing>, path: int -> real, scale: Symbol -> real)
    requires p.Valid() && DistinctSymbols(universe) && OnePath(universe, path, scale)
    ensures forall i :: 0 <= i < |Study(p, universe)| ==> Study(p, universe)[i].gross == 0.0
  {
    ObservedOnPath(p, universe, path, scale, Bound(p, |Calendar(universe)|));
  }

  // ---- invariances ----------------------------------------------------

  /** Two universes the study cannot tell apart. */
  ghost predicate Alike(u: seq<Listing>, v: seq<Listing>) {
    && Calendar(u) == Calendar(v)
    && forall t :: Ranking(u, t) == Ranking(v, t) && Forwards(u, t) == Forwards(v, t)
  }

  lemma {:induction false} AlikeObserved(p: Params, u: seq<Listing>, v: seq<Listing>, upTo: nat)
    requires p.Valid() && Alike(u, v) && (upTo <= p.lookback || upTo + p.horizon <= |Calendar(u)|)
    ensures Observed(p, u, upTo) == Observed(p, v, upTo)
  {
    if upTo > p.lookback {
      AlikeObserved(p, u, v, upTo - 1);
      var t := DatesAt(p, Calendar(u), upTo - 1);
      assert Ranking(u, t) == Ranking(v, t) && Forwards(u, t) == Forwards(v, t);
    }
  }

  lemma AlikeStudies(p: Params, u: seq<Listing>, v: seq<Listing>)
    requires p.Valid() && Alike(u, v)
    ensures Study(p, u) == Study(p, v)
  {
    AlikeObserved(p, u, v, Bound(p, |Calendar(u)|));
  }

  /** The same listing with every close multiplied by a positive factor. */
  predicate RescaledListing(l: Listing, m: Listing, factor: real) {
    var p, q := Prices(l.series), Prices(m.series);
    && factor > 0.0 && l.symbol == m.symbol && p.Keys == q.Keys
    && forall d :: d in p ==> q[d] == factor * p[d]
  }

  predicate Rescaled(u: seq<Listing>, v: seq<Listing>, factors: seq<real>) {
    && |u| == |v| == |factors|
    && forall i :: 0 <= i < |u| ==> RescaledListing(u[i], v[i], factors[i])
  }

  lemma RescaledEligible(l: Listing, m: Listing, factor: real, t: Dates)
    requires RescaledListing(l, m, factor)
    ensures Eligible(l, t) <==> Eligible(m, t)
  {
  }

  lemma RescaledMaps(p: map<int, real>, q: map<int, real>, factor: real, from: int, to: int)
    requires factor > 0.0 && from in p && to in p && from in q && to in q && p[from] > 0.0
    requires q[from] == factor * p[from] && q[to] == factor * p[to]
    ensures q[from] > 0.0 && Change(p[from], p[to]) == Change(q[from], q[to])
  {
    ChangeIgnoresScale(factor, p[from], p[to], q[from], q[to]);
  }

  lemma RescaledChange(l: Listing, m: Listing, factor: real, from: int, to: int)
    requires RescaledListing(l, m, factor) && from in Prices(l.series) && to in Prices(l.series)
    ensures Prices(l.series)[from] > 0.0 && Prices(m.series)[from] > 0.0
    ensures Change(Prices(l.series)[from], Prices(l.series)[to]) == Change(Prices(m.series)[from], Prices(m.series)[to])
  {
    PricesArePositive(l.series);
    RescaledMaps(Prices(l.series), Prices(m.series), factor, from, to);
  }

  lemma RescaledAlike(l: Listing, m: Listing, factor: real, t: Dates)
    requires RescaledListing(l, m, factor)
    ensures Eligible(l, t) <==> Eligible(m, t)
    ensures Eligible(l, t) ==> Trailing(l, t) == Trailing(m, t) && Forward(l, t) == Forward(m, t)
  {
    RescaledEligible(l, m, factor, t);
    if Eligible(l, t) {
      RescaledChange(l, m, factor, t.past, t.entry);
      RescaledChange(l, m, factor, t.entry, t.exit);
    }
  }

  lemma {:induction false} RescaledRankings(u: seq<Listing>, v: seq<Listing>, factors: seq<real>, t: Dates)
    requires Rescaled(u, v, factors)
    ensures Ranking(u, t) == Ranking(v, t) && Forwards(u, t) == Forwards(v, t)
  {
    if u != [] {
      var n := |u| - 1;
      RescaledRankings(u[..n], v[..n], factors[..n], t);
      RescaledAlike(u[n], v[n], factors[n], t);
    }
  }

  lemma SameDaysSameCalendar(u: seq<Listing>, v: seq<Listing>)
    requires forall d :: TradedOn(u, d) <==> TradedOn(v, d)
    ensures Calendar(u) == Calendar(v)
  {
    CalendarIsUnion(u);
    CalendarIsUnion(v);
    AscendingIsUnique(Calendar(u), Calendar(v));
  }

  /** Quoting any symbol in other units changes nothing. */
  lemma RescalingChangesNothing(p: Params, u: seq<Listing>, v: seq<Listing>, factors: seq<real>)
    requires p.Valid() && Rescaled(u, v, factors)
    ensures Study(p, u) == Study(p, v)
  {
    forall t
      ensures Ranking(u, t) == Ranking(v, t) && Forwards(u, t) == Forwards(v, t)
    {
      RescaledRankings(u, v, factors, t);
    }
    forall d
      ensures TradedOn(u, d) <==> TradedOn(v, d)
    {
      if l :| l in u && d in Prices(l.series) {
        var i :| 0 <= i < |u| && u[i] == l;
        assert v[i] in v && d in Prices(v[i].series);
      }
      if l :| l in v && d in Prices(l.series) {
        var i :| 0 <= i < |v| && v[i] == l;
        assert u[i] in u && d in Prices(u[i].series);
      }
    }
    SameDaysSameCalendar(u, v);
    AlikeStudies(p, u, v);
  }

  lemma {:induction false} ForwardsMembers(universe: seq<Listing>, t: Dates)
    ensures forall s :: s in Forwards(universe, t) <==> exists l :: l in universe && Eligible(l, t) && l.symbol == s
  {
    if universe != [] {
      var before, l := universe[..|universe| - 1], universe[|universe| - 1];
      ForwardsMembers(before, t);
      assert universe == before + [l];
    }
  }

  lemma ReorderedRankings(u: seq<Listing>, v: seq<Listing>, t: Dates)
    requires DistinctSymbols(u) && DistinctSymbols(v) && forall l :: l in u <==> l in v
    ensures Ranking(u, t) == Ranking(v, t) && Forwards(u, t) == Forwards(v, t)
  {
    RankingMembers(u, t);
    RankingMembers(v, t);
    assert forall e :: EntryOf(u, t, e) <==> EntryOf(v, t, e);
    RankingIsUnique(Ranking(u, t), Ranking(v, t));
    ForwardsMembers(u, t);
    ForwardsMembers(v, t);
    forall s | s in Forwards(u, t)
      ensures s in Forwards(v, t) && Forwards(v, t)[s] == Forwards(u, t)[s]
    {
      var l :| l in u && Eligible(l, t) && l.symbol == s;
      ForwardOf(u, t, l);
      ForwardOf(v, t, l);
    }
    assert forall s :: s in Forwards(v, t) ==> s in Forwards(u, t);
  }

  /** The order in which the mapping of symbols is iterated changes nothing. */
  lemma MapOrderChangesNothing(p: Params, u: seq<Listing>, v: seq<Listing>)
    requires p.Valid() && DistinctSymbols(u) && DistinctSymbols(v) && forall l :: l in u <==> l in v
    ensures Study(p, u) == Study(p, v)
  {
    forall t
      ensures Ranking(u, t) == Ranking(v, t) && Forwards(u, t) == Forwards(v, t)
    {
      ReorderedRankings(u, v, t);
    }
    assert forall d :: TradedOn(u, d) <==> TradedOn(v, d);
    SameDaysSameCalendar(u, v);
    AlikeStudies(p, u, v);
  }

  // ---- the two legs ---------------------------------------------------

  lemma RankedSymbolsAreDistinct(universe: seq<Listing>, t: Dates, i: nat, j: nat)
    requires DistinctSymbols(universe) && i < j < |Ranking(universe, t)|
    ensures Ranking(universe, t)[i].symbol != Ranking(universe, t)[j].symbol
  {
    var ranking := Ranking(universe, t);
    RankingMembers(universe, t);
    assert ranking[i] in ranking && ranking[j] in ranking;
    assert EntryOf(universe, t, ranking[i]) && EntryOf(universe, t, ranking[j]);
    var l :| l in universe && Eligible(l, t) && ranking[i] == Entry(Trailing(l, t), l.symbol);
    var m :| m in universe && Eligible(m, t) && ranking[j] == Entry(Trailing(m, t), m.symbol);
    LowerIsStrict(ranking[i], ranking[j]);
    var a :| 0 <= a < |universe| && universe[a] == l;
    var b :| 0 <= b < |universe| && universe[b] == m;
    assert a != b;
  }

  /** No symbol is both bought and sold exactly when at least two symbols rank. */
  lemma LegsDisjointIff(p: Params, universe: seq<Listing>, t: Dates)
    requires p.Valid() && DistinctSymbols(universe) && Ranking(universe, t) != []
    ensures var (longs, shorts) := Legs(Ranking(universe, t), p.quantile);
      (forall s :: !(s in longs && s in shorts)) <==> |Ranking(universe, t)| >= 2
  {
    var ranking := Ranking(universe, t);
    var take := TakeCount(|ranking|, p.quantile);
    var (longs, shorts) := Legs(ranking, p.quantile);
    if |ranking| >= 2 {
      forall s | s in longs
        ensures s !in shorts
      {
        var i :| 0 <= i < |longs| && longs[i] == s;
        forall j | 0 <= j < |shorts|
          ensures shorts[j] != s
        {
          RankedSymbolsAreDistinct(universe, t, j, |ranking| - take + i);
        }
      }
    } else {
      assert longs[0] == shorts[0];
      assert longs[0] in longs && longs[0] in shorts;
    }
  }
}
