/** Candle updates from the exchange, closed on rollover by the collector and buffered for analysis. */
module CandleStream {
  import opened Schemas

  datatype Key = Key(symbol: Symbol, interval: string)

  datatype Update = Update(key: Key, candle: Candle)

  // ---- one key --------------------------------------------------------

  /** One update against the candle held back for its key: what is held next and what is published. */
  function Collected(held: Option<Candle>, c: Candle, publishUnclosed: bool): (Option<Candle>, seq<Candle>) {
    if held.Some? && c.openTime < held.value.openTime then (held, [])
    else
      (Some(c),
       (if held.Some? && c.openTime > held.value.openTime then [held.value.(isClosed := true)] else [])
       + (if publishUnclosed then [c] else []))
  }

  /** A bounded deque: appending past the bound drops from the left. */
  function Pushed(buffer: seq<Candle>, c: Candle, max: nat): seq<Candle> {
    LastOf(buffer + [c], max)
  }

  /** One candle against the buffer of its key: the new buffer, and whether the candle was stored. */
  function Buffered(buffer: seq<Candle>, c: Candle, max: nat): (seq<Candle>, bool) {
    if !c.isClosed then (buffer, false)
    else if buffer != [] && buffer[|buffer| - 1].openTime == c.openTime then (buffer[|buffer| - 1 := c], true)
    else if buffer != [] && buffer[|buffer| - 1].openTime > c.openTime then (buffer, false)
    else (Pushed(buffer, c, max), true)
  }

  // ---- what the stream means ------------------------------------------

  /** An update is current when no earlier update was for a later candle. */
  predicate Current(us: seq<Candle>, i: nat)
    requires i < |us|
  {
    forall j :: 0 <= j < i ==> us[j].openTime <= us[i].openTime
  }

  /** The current updates, in order; stale ones are dropped. */
  function CurrentOnes(us: seq<Candle>): seq<Candle> {
    if us == [] then []
    else
      CurrentOnes(us[..|us| - 1]) + if Current(us, |us| - 1) then [us[|us| - 1]] else []
  }

  /** The last version of each candle before a later candle replaced it, marked closed. */
  function Rollovers(current: seq<Candle>): seq<Candle> {
    if |current| < 2 then []
    else
      var n := |current|;
      Rollovers(current[..n - 1])
      + if current[n - 1].openTime > current[n - 2].openTime then [current[n - 2].(isClosed := true)] else []
  }

  lemma {:induction false} CurrentOnesAscend(us: seq<Candle>)
    ensures var cs := CurrentOnes(us);
      && (us != [] ==> cs != [] && forall j :: 0 <= j < |us| ==> us[j].openTime <= cs[|cs| - 1].openTime)
      && Ascending(cs)
      && (forall c :: c in cs ==> c in us)
  {
    if us != [] {
      var before := us[..|us| - 1];
      CurrentOnesAscend(before);
      var cs := CurrentOnes(before);
      forall i | 0 <= i < |cs| && Current(us, |us| - 1)
        ensures cs[i].openTime <= us[|us| - 1].openTime
      {
        assert cs[i] in cs;
      }
    }
  }

  predicate Ascending(cs: seq<Candle>) {
    forall i, j :: 0 <= i <= j < |cs| ==> cs[i].openTime <= cs[j].openTime
  }

  /** Closed candles in strictly increasing open time, all before a given time. */
  predicate ClosedBefore(cs: seq<Candle>, time: int) {
    && (forall i, j :: 0 <= i < j < |cs| ==> cs[i].openTime < cs[j].openTime)
    && (forall i :: 0 <= i < |cs| ==> cs[i].isClosed && cs[i].openTime < time)
  }

  lemma {:induction false} RolloversIncrease(current: seq<Candle>)
    requires current != [] && Ascending(current)
    ensures ClosedBefore(Rollovers(current), current[|current| - 1].openTime)
    decreases |current|
  {
    if |current| >= 2 {
      var front := current[..|current| - 1];
      RolloversIncrease(front);
      assert ClosedBefore(Rollovers(front), current[|current| - 2].openTime);
    }
  }

  // ---- the pipeline for one key ---------------------------------------

  /** `closed` records every closed candle published, `stored` whether the builder accepted all of them. */
  datatype KeyState = KeyState(held: Option<Candle>, buffer: seq<Candle>, closed: seq<Candle>, stored: bool)

  const START := KeyState(None, [], [], true)

  function Delivered(st: KeyState, published: seq<Candle>, max: nat): KeyState
    decreases |published|
  {
    if published == [] then st
    else
      var c := published[0];
      var (buffer, stored) := Buffered(st.buffer, c, max);
      Delivered(st.(buffer := buffer,
                    closed := if c.isClosed then st.closed + [c] else st.closed,
                    stored := st.stored && (c.isClosed ==> stored)),
                published[1..], max)
  }

  function KeyStepped(st: KeyState, c: Candle, publishUnclosed: bool, max: nat): KeyState {
    var (held, published) := Collected(st.held, c, publishUnclosed);
    Delivered(st.(held := held), published, max)
  }

  function KeyRun(us: seq<Candle>, publishUnclosed: bool, max: nat): KeyState {
    if us == [] then START
    else KeyStepped(KeyRun(us[..|us| - 1], publishUnclosed, max), us[|us| - 1], publishUnclosed, max)
  }

  /** Updates arrive unclosed: the collector alone decides when a candle is final. */
  predicate Unclosed(us: seq<Candle>) {
    forall i :: 0 <= i < |us| ==> !us[i].isClosed
  }

  /** The builder's buffer is exactly the last `max` closed candles, none of them refused. */
  predicate Faithful(st: KeyState, max: nat) {
    st.stored && st.buffer == LastOf(st.closed, max)
  }

  lemma UnclosedChangesNothing(st: KeyState, c: Candle, max: nat)
    requires !c.isClosed
    ensures Delivered(st, [c], max) == st
  {
  }

  lemma ClosedIsStored(st: KeyState, c: Candle, max: nat)
    requires Faithful(st, max) && c.isClosed
    requires ClosedBefore(st.closed, c.openTime)
    ensures var st' := Delivered(st, [c], max);
      Faithful(st', max) && st'.closed == st.closed + [c] && st'.held == st.held
  {
  }

  lemma DeliveredInTurn(st: KeyState, a: Candle, b: Candle, max: nat)
    ensures Delivered(st, [a, b], max) == Delivered(Delivered(st, [a], max), [b], max)
  {
  }

  lemma StepDelivers(st: KeyState, c: Candle, publishUnclosed: bool, max: nat, closing: seq<Candle>)
    requires Faithful(st, max) && !c.isClosed
    requires |closing| <= 1 && (closing != [] ==> closing[0].isClosed)
    requires closing != [] ==> ClosedBefore(st.closed, closing[0].openTime)
    requires Collected(st.held, c, publishUnclosed)
             == (Some(c), closing + if publishUnclosed then [c] else [])
    ensures var st' := KeyStepped(st, c, publishUnclosed, max);
      Faithful(st', max) && st'.closed == st.closed + closing && st'.held == Some(c)
  {
    var now := st.(held := Some(c));
    assert Faithful(now, max);
    if closing != [] {
      assert closing == [closing[0]];
      ClosedIsStored(now, closing[0], max);
      UnclosedChangesNothing(Delivered(now, closing, max), c, max);
      DeliveredInTurn(now, closing[0], c, max);
      assert closing + [c] == [closing[0], c];
      assert closing + [] == closing;
    } else {
      UnclosedChangesNothing(now, c, max);
      assert closing + [c] == [c] && closing + [] == [];
    }
  }

  /** Main result for one key: whatever the update stream and the buffer size, the closed candles published are
      the last version of each candle before rollover in strictly increasing open time, the builder accepts
      every one of them, and its buffer is exactly the last `max` of them. */
  lemma {:induction false} PipelineIsFaithful(us: seq<Candle>, publishUnclosed: bool, max: nat)
    requires Unclosed(us)
    ensures Follows(KeyRun(us, publishUnclosed, max), CurrentOnes(us), max)
  {
    if us != [] {
      var before := us[..|us| - 1];
      PipelineIsFaithful(before, publishUnclosed, max);
      CurrentOnesUnfold(us);
      StepFollows(KeyRun(before, publishUnclosed, max), CurrentOnes(before), us[|us| - 1], publishUnclosed, max);
    }
  }

  /** The last update joins the current ones exactly when it is not older than the newest of them. */
  lemma CurrentOnesUnfold(us: seq<Candle>)
    requires us != []
    ensures var cs := CurrentOnes(us[..|us| - 1]); var c := us[|us| - 1];
      && Ascending(cs)
      && CurrentOnes(us) == if cs == [] || c.openTime >= cs[|cs| - 1].openTime then cs + [c] else cs
  {
    var before := us[..|us| - 1];
    var cs := CurrentOnes(before);
    CurrentOnesAscend(before);
    if before == [] {
      assert Current(us, 0);
    } else {
      CurrentIffNotStale(us, cs[|cs| - 1]);
    }
  }

  /** The state after the current updates `cs`. */
  predicate Follows(st: KeyState, cs: seq<Candle>, max: nat) {
    && st.closed == Rollovers(cs)
    && Faithful(st, max)
    && st.held == if cs == [] then None else Some(cs[|cs| - 1])
  }

  lemma StepFollows(st: KeyState, cs: seq<Candle>, c: Candle, publishUnclosed: bool, max: nat)
    requires Follows(st, cs, max) && Ascending(cs) && !c.isClosed
    ensures var st' := KeyStepped(st, c, publishUnclosed, max);
      Follows(st', if cs == [] || c.openTime >= cs[|cs| - 1].openTime then cs + [c] else cs, max)
  {
    if cs == [] {
      StepDelivers(st, c, publishUnclosed, max, []);
      assert Rollovers([c]) == [];
    } else if c.openTime >= cs[|cs| - 1].openTime {
      RolloversIncrease(cs);
      var last := cs[|cs| - 1];
      var closing := if c.openTime > last.openTime then [last.(isClosed := true)] else [];
      StepDelivers(st, c, publishUnclosed, max, closing);
      assert (cs + [c])[..|cs|] == cs;
      assert Rollovers(cs + [c]) == Rollovers(cs) + closing;
    }
  }

  lemma CurrentIffNotStale(us: seq<Candle>, newest: Candle)
    requires us != [] && newest in us[..|us| - 1]
    requires forall j :: 0 <= j < |us| - 1 ==> us[j].openTime <= newest.openTime
    ensures Current(us, |us| - 1) <==> us[|us| - 1].openTime >= newest.openTime
  {
  }

  // ---- many keys ------------------------------------------------------

  function ForKey(updates: seq<Update>, key: Key): seq<Candle> {
    if updates == [] then []
    else
      ForKey(updates[..|updates| - 1], key)
      + if updates[|updates| - 1].key == key then [updates[|updates| - 1].candle] else []
  }

  function StateOf(states: map<Key, KeyState>, key: Key): KeyState {
    if key in states then states[key] else START
  }

  function Run(updates: seq<Update>, publishUnclosed: bool, max: nat): map<Key, KeyState> {
    if updates == [] then map[]
    else
      var before := Run(updates[..|updates| - 1], publishUnclosed, max);
      var u := updates[|updates| - 1];
      before[u.key := KeyStepped(StateOf(before, u.key), u.candle, publishUnclosed, max)]
  }

  lemma {:induction false} KeysAreIndependent(updates: seq<Update>, publishUnclosed: bool, max: nat, key: Key)
    ensures StateOf(Run(updates, publishUnclosed, max), key) == KeyRun(ForKey(updates, key), publishUnclosed, max)
  {
    if updates != [] {
      var before := updates[..|updates| - 1];
      KeysAreIndependent(before, publishUnclosed, max, key);
      var u := updates[|updates| - 1];
      if u.key == key {
        var own := ForKey(before, key);
        var all := own + [u.candle];
        assert ForKey(updates, key) == all && all[..|all| - 1] == own && all[|all| - 1] == u.candle;
      } else {
        assert ForKey(updates, key) == ForKey(before, key);
      }
    }
  }

  predicate AllUnclosed(updates: seq<Update>) {
    forall i :: 0 <= i < |updates| ==> !updates[i].candle.isClosed
  }

  lemma {:induction false} ForKeyUnclosed(updates: seq<Update>, key: Key)
    requires AllUnclosed(updates)
    ensures Unclosed(ForKey(updates, key))
  {
    if updates != [] {
      ForKeyUnclosed(updates[..|updates| - 1], key);
    }
  }

  /** Any interleaving of symbols and intervals: each key's buffer is the last `max` rollovers of its own updates. */
  lemma EveryBufferIsFaithful(updates: seq<Update>, publishUnclosed: bool, max: nat, key: Key)
    requires AllUnclosed(updates)
    ensures var st := StateOf(Run(updates, publishUnclosed, max), key);
      st.stored && st.buffer == LastOf(Rollovers(CurrentOnes(ForKey(updates, key))), max)
  {
    KeysAreIndependent(updates, publishUnclosed, max, key);
    ForKeyUnclosed(updates, key);
    PipelineIsFaithful(ForKey(updates, key), publishUnclosed, max);
  }

  // ---- the mutable components -----------------------------------------

  class Collector {
    var openCandles: map<Key, Candle>
    var candlesPublished: nat
    const publishUnclosed: bool

    constructor (publishUnclosed: bool)
      ensures openCandles == map[] && candlesPublished == 0 && this.publishUnclosed == publishUnclosed
    {
      openCandles, candlesPublished := map[], 0;
      this.publishUnclosed := publishUnclosed;
    }

    function Held(key: Key): Option<Candle>
      reads this
    {
      if key in openCandles then Some(openCandles[key]) else None
    }

    method HandleCandle(u: Update) returns (published: seq<Candle>)
      modifies this
      ensures Held(u.key) == Collected(old(Held(u.key)), u.candle, publishUnclosed).0
      ensures published == Collected(old(Held(u.key)), u.candle, publishUnclosed).1
      ensures forall k :: k != u.key ==> Held(k) == old(Held(k))
      ensures candlesPublished == old(candlesPublished) + |published|
    {
      published := [];
      if u.key in openCandles {
        var previous := openCandles[u.key];
        if u.candle.openTime > previous.openTime {
          published := published + [previous.(isClosed := true)];
        } else if u.candle.openTime < previous.openTime {
          return;
        }
      }
      openCandles := openCandles[u.key := u.candle];
      if publishUnclosed {
        published := published + [u.candle];
      }
      candlesPublished := candlesPublished + |published|;
    }
  }

  class ContextBuilder {
    var candles: map<Key, seq<Candle>>
    const intervals: set<string>
    const maxCandles: nat

    constructor (intervals: set<string>, maxCandles: nat)
      ensures candles == map[] && this.intervals == intervals && this.maxCandles == maxCandles
    {
      candles := map[];
      this.intervals, this.maxCandles := intervals, maxCandles;
    }

    function BufferOf(key: Key): seq<Candle>
      reads this
    {
      if key in candles then candles[key] else []
    }

    /** Candles of an interval that is not buffered are ignored. */
    method AddCandle(key: Key, c: Candle) returns (stored: bool)
      modifies this`candles
      ensures key.interval in intervals ==>
        && BufferOf(key) == Buffered(old(BufferOf(key)), c, maxCandles).0
        && stored == Buffered(old(BufferOf(key)), c, maxCandles).1
      ensures key.interval !in intervals ==> !stored && candles == old(candles)
      ensures forall k :: k != key ==> BufferOf(k) == old(BufferOf(k))
    {
      if !c.isClosed || key.interval !in intervals {
        return false;
      }
      var buffer := BufferOf(key);
      if buffer != [] && buffer[|buffer| - 1].openTime == c.openTime {
        candles := candles[key := buffer[|buffer| - 1 := c]];
        return true;
      }
      if buffer != [] && buffer[|buffer| - 1].openTime > c.openTime {
        return false;
      }
      candles := candles[key := Pushed(buffer, c, maxCandles)];
      return true;
    }
  }
}
