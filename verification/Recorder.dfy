/** The market recorder: rows buffered per stream, flushed in batches, put back when a write fails. */
module Recorder {
  import opened Schemas

  datatype Stream = Books | Metrics | Funding | Candles

  /** A row is known by the stream it belongs to and its place in arrival order. */
  datatype Row = Row(stream: Stream, symbol: Symbol, stamp: int, serial: nat)

  // ---- one stream -----------------------------------------------------

  /** One stream's rows: waiting, handed to a write that is pending, written, and (for the record) accepted. */
  datatype Queue = Queue(buffer: seq<Row>, pending: Option<seq<Row>>, written: seq<Row>, accepted: seq<Row>)

  const EMPTY := Queue([], None, [], [])

  /** How a pending write ends: written, failed with an exception, or neither written nor put back. The last
      is what cancelling the flush task does (a cancellation is not an `Exception`), and an unset sink. */
  datatype Outcome = Wrote | Threw | Vanished

  /** The atomic steps between awaits. */
  datatype Step = Accept(row: Row) | Swap | Answer(outcome: Outcome)

  function Truncated(rows: seq<Row>, limit: nat): seq<Row> {
    if |rows| <= limit then rows else rows[..limit]
  }

  function InFlight(q: Queue): seq<Row> {
    if q.pending.Some? then q.pending.value else []
  }

  function Stepped(q: Queue, step: Step, limit: nat): Queue {
    match step
    case Accept(row) => q.(buffer := q.buffer + [row], accepted := q.accepted + [row])
    case Swap => q.(pending := Some(q.buffer), buffer := [])
    case Answer(Wrote) => q.(written := q.written + InFlight(q), pending := None)
    case Answer(Threw) =>
      q.(buffer := if InFlight(q) == [] then q.buffer else Truncated(InFlight(q) + q.buffer, limit), pending := None)
    case Answer(Vanished) => q.(pending := None)
  }

  /** Flushes that do not overlap: swap only when nothing is pending, answer only what is. */
  predicate InTurn(q: Queue, step: Step) {
    match step
    case Accept(_) => true
    case Swap => q.pending == None
    case Answer(_) => q.pending.Some?
  }

  function Run(steps: seq<Step>, limit: nat): Queue {
    if steps == [] then EMPTY
    else Stepped(Run(steps[..|steps| - 1], limit), steps[|steps| - 1], limit)
  }

  predicate Orderly(steps: seq<Step>, limit: nat) {
    forall i :: 0 <= i < |steps| ==> InTurn(Run(steps[..i], limit), steps[i])
  }

  /** The retry bound bites when a failed batch and what arrived meanwhile exceed it. */
  predicate Truncates(q: Queue, step: Step, limit: nat) {
    step == Answer(Threw) && InFlight(q) != [] && |InFlight(q) + q.buffer| > limit
  }

  /** The two ways a row is lost: the retry bound bites, or a batch vanishes. */
  predicate Loses(q: Queue, step: Step, limit: nat) {
    Truncates(q, step, limit) || (step == Answer(Vanished) && InFlight(q) != [])
  }

  predicate NeverLoses(steps: seq<Step>, limit: nat) {
    forall i :: 0 <= i < |steps| ==> !Loses(Run(steps[..i], limit), steps[i], limit)
  }

  /** Everything written, in flight and waiting, in that order. */
  function Held(q: Queue): seq<Row> {
    q.written + InFlight(q) + q.buffer
  }

  lemma OrderlyUnfolds(steps: seq<Step>, limit: nat)
    requires steps != []
    ensures var before := steps[..|steps| - 1];
      Orderly(steps, limit) <==> Orderly(before, limit) && InTurn(Run(before, limit), steps[|steps| - 1])
  {
    var before := steps[..|steps| - 1];
    assert forall i :: 0 <= i < |before| ==> before[..i] == steps[..i];
  }

  lemma NeverLosesUnfolds(steps: seq<Step>, limit: nat)
    requires steps != []
    ensures var before := steps[..|steps| - 1];
      NeverLoses(steps, limit) <==> NeverLoses(before, limit) && !Loses(Run(before, limit), steps[|steps| - 1], limit)
  {
    var before := steps[..|steps| - 1];
    assert forall i :: 0 <= i < |before| ==> before[..i] == steps[..i];
  }

  lemma StepConserves(q: Queue, step: Step, limit: nat)
    requires InTurn(q, step) && !Loses(q, step, limit) && Held(q) == q.accepted
    ensures var q' := Stepped(q, step, limit); Held(q') == q'.accepted
  {
    var q' := Stepped(q, step, limit);
    if step.Accept? {
      assert Held(q') == Held(q) + [step.row];
    } else {
      LosslessHolds(q, step, limit);
    }
  }

  /** What is not held any more stays lost: no step closes the gap, and a losing step widens it. */
  lemma StepWidensGap(q: Queue, step: Step, limit: nat)
    requires InTurn(q, step) && |Held(q)| <= |q.accepted|
    requires Loses(q, step, limit) || |Held(q)| < |q.accepted|
    ensures var q' := Stepped(q, step, limit); |Held(q')| < |q'.accepted|
  {
  }

  lemma {:induction false} GapOrHeld(steps: seq<Step>, limit: nat)
    requires Orderly(steps, limit)
    ensures var q := Run(steps, limit);
      if NeverLoses(steps, limit) then Held(q) == q.accepted else |Held(q)| < |q.accepted|
  {
    if steps != [] {
      OrderlyUnfolds(steps, limit);
      NeverLosesUnfolds(steps, limit);
      var before, last := steps[..|steps| - 1], steps[|steps| - 1];
      GapOrHeld(before, limit);
      if NeverLoses(steps, limit) {
        StepConserves(Run(before, limit), last, limit);
      } else {
        StepWidensGap(Run(before, limit), last, limit);
      }
    }
  }

  /** Main result: with appends interleaving pending writes in any way, the written rows followed by the rows in
      flight and the buffer are the accepted rows, in order and exactly once, if and only if the retry bound has
      never truncated and no batch has vanished. */
  lemma RowsAreConserved(steps: seq<Step>, limit: nat)
    requires Orderly(steps, limit)
    ensures var q := Run(steps, limit); Held(q) == q.accepted <==> NeverLoses(steps, limit)
  {
    GapOrHeld(steps, limit);
  }

  // ---- after a loss ---------------------------------------------------

  predicate IsSubsequence(small: seq<Row>, big: seq<Row>)
    decreases |big|
  {
    if small == [] then true
    else if big == [] then false
    else if small[|small| - 1] == big[|big| - 1] && IsSubsequence(small[..|small| - 1], big[..|big| - 1]) then true
    else IsSubsequence(small, big[..|big| - 1])
  }

  lemma {:induction false} SubsequenceOfLonger(small: seq<Row>, big: seq<Row>, row: Row)
    requires IsSubsequence(small, big)
    ensures IsSubsequence(small, big + [row])
    ensures IsSubsequence(small + [row], big + [row])
  {
  }

  lemma {:induction false} FrontIsSubsequence(a: seq<Row>, b: seq<Row>, big: seq<Row>)
    requires IsSubsequence(a + b, big)
    ensures IsSubsequence(a, big)
    decreases |big|
  {
    var small := a + b;
    if b == [] {
      assert small == a;
    } else {
      var shorter, last := big[..|big| - 1], big[|big| - 1];
      assert shorter + [last] == big;
      if small[|small| - 1] == last && IsSubsequence(small[..|small| - 1], shorter) {
        assert small[..|small| - 1] == a + b[..|b| - 1];
        FrontIsSubsequence(a, b[..|b| - 1], shorter);
      } else {
        FrontIsSubsequence(a, b, shorter);
      }
      SubsequenceOfLonger(a, shorter, last);
    }
  }

  /** Where the last row of a subsequence sits. */
  lemma {:induction false} LastMatch(x: seq<Row>, r: Row, big: seq<Row>) returns (k: nat)
    requires IsSubsequence(x + [r], big)
    ensures k < |big| && big[k] == r && IsSubsequence(x, big[..k])
    decreases |big|
  {
    assert (x + [r])[..|x|] == x;
    k := |big| - 1;
    if !(big[k] == r && IsSubsequence(x, big[..k])) {
      k := LastMatch(x, r, big[..k]);
      assert big[..|big| - 1][..k] == big[..k];
    }
  }

  lemma {:induction false} MatchExtends(x: seq<Row>, r: Row, big: seq<Row>, k: nat)
    requires k < |big| && big[k] == r && IsSubsequence(x, big[..k])
    ensures IsSubsequence(x + [r], big)
    decreases |big|
  {
    var shorter := big[..|big| - 1];
    assert shorter + [big[|big| - 1]] == big;
    if k == |big| - 1 {
      SubsequenceOfLonger(x, shorter, r);
    } else {
      assert shorter[..k] == big[..k];
      MatchExtends(x, r, shorter, k);
      SubsequenceOfLonger(x + [r], shorter, big[|big| - 1]);
    }
  }

  /** Taking a stretch out of a subsequence leaves a subsequence. */
  lemma {:induction false} CutIsSubsequence(a: seq<Row>, b: seq<Row>, c: seq<Row>, big: seq<Row>)
    requires IsSubsequence(a + b + c, big)
    ensures IsSubsequence(a + c, big)
    decreases |c|
  {
    if c == [] {
      assert a + b + c == a + b && a + c == a;
      FrontIsSubsequence(a, b, big);
    } else {
      var front, r := c[..|c| - 1], c[|c| - 1];
      assert a + b + c == a + b + front + [r] && a + c == a + front + [r];
      var k := LastMatch(a + b + front, r, big);
      CutIsSubsequence(a, b, front, big[..k]);
      MatchExtends(a + front, r, big, k);
    }
  }

  lemma TruncatingKeepsSubsequence(q: Queue, limit: nat)
    requires Truncates(q, Answer(Threw), limit) && IsSubsequence(Held(q), q.accepted)
    ensures IsSubsequence(Held(Stepped(q, Answer(Threw), limit)), q.accepted)
  {
    TruncationDropsNewest(q, limit);
    var kept := Held(q)[..|q.written| + limit];
    assert Held(q) == kept + Held(q)[|kept|..];
    FrontIsSubsequence(kept, Held(q)[|kept|..], q.accepted);
  }

  lemma VanishingKeepsSubsequence(q: Queue, limit: nat)
    requires IsSubsequence(Held(q), q.accepted)
    ensures IsSubsequence(Held(Stepped(q, Answer(Vanished), limit)), q.accepted)
  {
    assert Held(Stepped(q, Answer(Vanished), limit)) == q.written + q.buffer;
    CutIsSubsequence(q.written, InFlight(q), q.buffer, q.accepted);
  }

  lemma LosslessHolds(q: Queue, step: Step, limit: nat)
    requires InTurn(q, step) && !Loses(q, step, limit) && !step.Accept?
    ensures Held(Stepped(q, step, limit)) == Held(q)
  {
  }

  lemma StepKeepsSubsequence(q: Queue, step: Step, limit: nat)
    requires InTurn(q, step) && IsSubsequence(Held(q), q.accepted)
    ensures var q' := Stepped(q, step, limit); IsSubsequence(Held(q'), q'.accepted)
  {
    if step.Accept? {
      assert Held(Stepped(q, step, limit)) == Held(q) + [step.row];
      SubsequenceOfLonger(Held(q), q.accepted, step.row);
    } else if !Loses(q, step, limit) {
      LosslessHolds(q, step, limit);
    } else if step == Answer(Vanished) {
      VanishingKeepsSubsequence(q, limit);
    } else {
      TruncatingKeepsSubsequence(q, limit);
    }
  }

  /** Whatever is lost, what is held is a subsequence of what was accepted: rows are never reordered
      or duplicated. */
  lemma {:induction false} HeldIsSubsequence(steps: seq<Step>, limit: nat)
    requires Orderly(steps, limit)
    ensures var q := Run(steps, limit); IsSubsequence(Held(q), q.accepted)
  {
    if steps != [] {
      OrderlyUnfolds(steps, limit);
      HeldIsSubsequence(steps[..|steps| - 1], limit);
      StepKeepsSubsequence(Run(steps[..|steps| - 1], limit), steps[|steps| - 1], limit);
    }
  }

  /** The rows the bound drops are the newest ones, not (as documented) the oldest: the failed batch is put
      back in front and the tail is cut. */
  lemma TruncationDropsNewest(q: Queue, limit: nat)
    requires Truncates(q, Answer(Threw), limit)
    ensures var q' := Stepped(q, Answer(Threw), limit);
      && Held(q') == Held(q)[..|q.written| + limit]
      && |Held(q')| < |Held(q)|
      && (limit > 0 ==> q'.buffer[0] == InFlight(q)[0])
  {
    assert Held(q) == q.written + (InFlight(q) + q.buffer);
  }

  // ---- shutdown -------------------------------------------------------

  /** Stopping cancels a pending flush and then flushes what is left, with whatever outcome. */
  function Stopped(q: Queue, last: Outcome, limit: nat): Queue {
    Stepped(Stepped(Stepped(q, Answer(Vanished), limit), Swap, limit), Answer(last), limit)
  }

  /** A stop loses nothing if and only if no rows are in flight when it cancels the flush task, and the last write
      succeeds or has nothing to write: rows it puts back are in a list that ends with the process. */
  lemma StopLosesNothingIff(q: Queue, last: Outcome, limit: nat)
    requires Held(q) == q.accepted
    ensures Stopped(q, last, limit).written == q.accepted <==> InFlight(q) == [] && (q.buffer == [] || last == Wrote)
  {
    assert Stopped(q, last, limit).written == if last == Wrote then q.written + q.buffer else q.written;
    assert |Held(q)| == |q.written| + |InFlight(q)| + |q.buffer|;
    if InFlight(q) == [] {
      assert Held(q) == q.written + q.buffer;
    }
  }

  // ---- a flush is a pass over four streams ----------------------------

  /** The streams in the order one flush writes them. */
  const ORDER: seq<Stream> := [Books, Metrics, Funding, Candles]

  function Place(s: Stream): (k: nat)
    ensures k < |ORDER| && ORDER[k] == s
  {
    match s
    case Books => 0
    case Metrics => 1
    case Funding => 2
    case Candles => 3
  }

  type Queues = Stream -> Queue

  /** The recorder between awaits: `turn` is the place of the stream whose write is awaited, past the last
      place when no flush is running. */
  datatype Machine = Machine(queues: Queues, turn: nat)

  const IDLE: nat := 4

  /** One lock-protected swap starts a flush; the awaited writes then end one after the other, or the
      whole flush task is cancelled. Rows may arrive at any time. */
  datatype Happening = Arrived(row: Row) | FlushBegun | WriteEnded(outcome: Outcome) | FlushCancelled

  /** Flushes that do not overlap. */
  predicate Possible(turn: nat, h: Happening) {
    match h
    case Arrived(_) => true
    case FlushBegun => turn >= IDLE
    case WriteEnded(_) => turn < IDLE
    case FlushCancelled => turn < IDLE
  }

  function TurnAfter(turn: nat, h: Happening): nat {
    match h
    case Arrived(_) => turn
    case FlushBegun => 0
    case WriteEnded(_) => turn + 1
    case FlushCancelled => IDLE
  }

  function Happened(m: Machine, h: Happening, limit: nat): Machine {
    var qs := m.queues;
    Machine(
      match h
      case Arrived(row) => (s: Stream) => if s == row.stream then Stepped(qs(s), Accept(row), limit) else qs(s)
      case FlushBegun => (s: Stream) => Stepped(qs(s), Swap, limit)
      case WriteEnded(o) => (s: Stream) => if Place(s) == m.turn then Stepped(qs(s), Answer(o), limit) else qs(s)
      case FlushCancelled => (s: Stream) => if Place(s) >= m.turn then Stepped(qs(s), Answer(Vanished), limit) else qs(s),
      TurnAfter(m.turn, h))
  }

  function RunAll(hs: seq<Happening>, limit: nat): Machine {
    if hs == [] then Machine((s: Stream) => EMPTY, IDLE)
    else Happened(RunAll(hs[..|hs| - 1], limit), hs[|hs| - 1], limit)
  }

  predicate PossibleRun(hs: seq<Happening>, limit: nat) {
    forall i :: 0 <= i < |hs| ==> Possible(RunAll(hs[..i], limit).turn, hs[i])
  }

  lemma PossiblePrefix(hs: seq<Happening>, limit: nat)
    requires hs != [] && PossibleRun(hs, limit)
    ensures PossibleRun(hs[..|hs| - 1], limit)
    ensures Possible(RunAll(hs[..|hs| - 1], limit).turn, hs[|hs| - 1])
  {
    var before := hs[..|hs| - 1];
    assert forall i :: 0 <= i < |before| ==> before[..i] == hs[..i];
  }

  /** What one happening is to one stream. */
  function SeenBy(turn: nat, h: Happening, s: Stream): seq<Step> {
    match h
    case Arrived(row) => if row.stream == s then [Accept(row)] else []
    case FlushBegun => [Swap]
    case WriteEnded(o) => if Place(s) == turn then [Answer(o)] else []
    case FlushCancelled => if Place(s) >= turn then [Answer(Vanished)] else []
  }

  function Projected(hs: seq<Happening>, s: Stream, limit: nat): seq<Step> {
    if hs == [] then []
    else
      var before := hs[..|hs| - 1];
      Projected(before, s, limit) + SeenBy(RunAll(before, limit).turn, hs[|hs| - 1], s)
  }

  /** A stream's batch is pending exactly until its own place in the pass. */
  predicate PendingInPlace(m: Machine, s: Stream) {
    m.queues(s).pending.Some? <==> Place(s) >= m.turn
  }

  /** What a happening does to a stream is the step that stream sees, if any. */
  lemma StreamSteps(m: Machine, h: Happening, limit: nat, s: Stream)
    ensures var own := SeenBy(m.turn, h, s);
      && |own| <= 1
      && Happened(m, h, limit).queues(s) == if own == [] then m.queues(s) else Stepped(m.queues(s), own[0], limit)
  {
  }

  lemma StreamStepsInTurn(m: Machine, h: Happening, limit: nat, s: Stream)
    requires Possible(m.turn, h) && PendingInPlace(m, s)
    ensures var own := SeenBy(m.turn, h, s); own == [] || InTurn(m.queues(s), own[0])
    ensures PendingInPlace(Happened(m, h, limit), s)
  {
  }

  lemma {:induction false} RunAppends(steps: seq<Step>, own: seq<Step>, limit: nat)
    requires |own| <= 1
    ensures Run(steps + own, limit) == if own == [] then Run(steps, limit) else Stepped(Run(steps, limit), own[0], limit)
    ensures Orderly(steps + own, limit) <==> Orderly(steps, limit) && (own == [] || InTurn(Run(steps, limit), own[0]))
  {
    if own == [] {
      assert steps + own == steps;
    } else {
      assert (steps + own)[..|steps|] == steps;
      OrderlyUnfolds(steps + own, limit);
    }
  }

  /** Every stream of a recorder is a queue driven in turn by its own rows and its own outcomes. */
  lemma {:induction false} StreamsAreOrderly(hs: seq<Happening>, limit: nat, s: Stream)
    requires PossibleRun(hs, limit)
    ensures RunAll(hs, limit).queues(s) == Run(Projected(hs, s, limit), limit)
    ensures Orderly(Projected(hs, s, limit), limit)
    ensures PendingInPlace(RunAll(hs, limit), s)
  {
    if hs != [] {
      PossiblePrefix(hs, limit);
      var before := hs[..|hs| - 1];
      StreamsAreOrderly(before, limit, s);
      var m, steps := RunAll(before, limit), Projected(before, s, limit);
      var h := hs[|hs| - 1];
      StreamSteps(m, h, limit, s);
      StreamStepsInTurn(m, h, limit, s);
      RunAppends(steps, SeenBy(m.turn, h, s), limit);
    }
  }

  /** Per stream, over every run of the whole recorder, rows are conserved if and only if that stream's own
      steps lose none: conservation does not depend on how any other stream fares. */
  lemma StreamIsConserved(hs: seq<Happening>, limit: nat, s: Stream)
    requires PossibleRun(hs, limit)
    ensures var q := RunAll(hs, limit).queues(s);
      Held(q) == q.accepted <==> NeverLoses(Projected(hs, s, limit), limit)
  {
    StreamsAreOrderly(hs, limit, s);
    RowsAreConserved(Projected(hs, s, limit), limit);
  }

  /** Two happenings that differ at most in the rows and the write outcome of streams other than `s`. */
  predicate AlikeFor(turn: nat, h: Happening, k: Happening, s: Stream) {
    match (h, k)
    case (Arrived(r), Arrived(t)) => r == t || (r.stream != s && t.stream != s)
    case (WriteEnded(o), WriteEnded(p)) => Place(s) == turn ==> o == p
    case _ => h == k
  }

  lemma SeenAlike(turn: nat, h: Happening, k: Happening, s: Stream)
    requires AlikeFor(turn, h, k, s)
    ensures SeenBy(turn, h, s) == SeenBy(turn, k, s) && TurnAfter(turn, h) == TurnAfter(turn, k)
  {
  }

  /** No other stream's rows, failures or retries reach a stream: change them all and it ends up the same. */
  lemma {:induction false} OthersDoNotMatter(hs: seq<Happening>, ks: seq<Happening>, limit: nat, s: Stream)
    requires |hs| == |ks|
    requires forall i :: 0 <= i < |hs| ==> AlikeFor(RunAll(hs[..i], limit).turn, hs[i], ks[i], s)
    ensures RunAll(hs, limit).queues(s) == RunAll(ks, limit).queues(s)
    ensures RunAll(hs, limit).turn == RunAll(ks, limit).turn
    decreases |hs|
  {
    if hs != [] {
      var n := |hs| - 1;
      assert forall i :: 0 <= i < n ==> hs[..n][..i] == hs[..i];
      OthersDoNotMatter(hs[..n], ks[..n], limit, s);
      SeenAlike(RunAll(hs[..n], limit).turn, hs[n], ks[n], s);
      StreamSteps(RunAll(hs[..n], limit), hs[n], limit, s);
      StreamSteps(RunAll(ks[..n], limit), ks[n], limit, s);
    }
  }

  // ---- one whole flush ------------------------------------------------

  function RunFrom(m: Machine, hs: seq<Happening>, limit: nat): Machine {
    if hs == [] then m else Happened(RunFrom(m, hs[..|hs| - 1], limit), hs[|hs| - 1], limit)
  }

  /** The outcomes of the writes, in the order they end. */
  function OutcomesOf(hs: seq<Happening>): seq<Outcome> {
    if hs == [] then []
    else
      OutcomesOf(hs[..|hs| - 1])
      + if hs[|hs| - 1].WriteEnded? then [hs[|hs| - 1].outcome] else []
  }

  function RowsFor(hs: seq<Happening>, s: Stream): seq<Row> {
    if hs == [] then []
    else
      RowsFor(hs[..|hs| - 1], s)
      + if hs[|hs| - 1].Arrived? && hs[|hs| - 1].row.stream == s then [hs[|hs| - 1].row] else []
  }

  predicate RowsAndWrites(hs: seq<Happening>) {
    forall i :: 0 <= i < |hs| ==> hs[i].Arrived? || hs[i].WriteEnded?
  }

  /** Where a flush of `q` stands for a stream once its write has ended, and before. */
  predicate Settled(q: Queue, now: Queue, outcome: Outcome, arrived: seq<Row>) {
    && now.pending == None && now.accepted == q.accepted + arrived
    && now.written == q.written + (if outcome == Wrote then q.buffer else [])
    && now.buffer == (if outcome == Threw then q.buffer else []) + arrived
  }

  predicate Awaited(q: Queue, now: Queue, arrived: seq<Row>) {
    && now.pending == Some(q.buffer) && now.accepted == q.accepted + arrived
    && now.written == q.written && now.buffer == arrived
  }

  lemma ArrivalOrEnd(q: Queue, now: Queue, arrived: seq<Row>, row: Row, outcome: Outcome, limit: nat)
    requires |q.buffer| + |arrived| <= limit
    ensures Awaited(q, now, arrived) ==>
              && Awaited(q, Stepped(now, Accept(row), limit), arrived + [row])
              && Settled(q, Stepped(now, Answer(outcome), limit), outcome, arrived)
    ensures Settled(q, now, outcome, arrived) ==>
              Settled(q, Stepped(now, Accept(row), limit), outcome, arrived + [row])
  {
  }

  lemma {:induction false} PassReaches(m: Machine, hs: seq<Happening>, limit: nat, s: Stream)
    requires RowsAndWrites(hs) && |OutcomesOf(hs)| <= |ORDER|
    requires |m.queues(s).buffer| + |RowsFor(hs, s)| <= limit
    ensures var now := RunFrom(Happened(m, FlushBegun, limit), hs, limit); var done := OutcomesOf(hs);
      && now.turn == |done|
      && (if Place(s) < |done| then Settled(m.queues(s), now.queues(s), done[Place(s)], RowsFor(hs, s))
          else Awaited(m.queues(s), now.queues(s), RowsFor(hs, s)))
    decreases |hs|
  {
    if hs != [] {
      var before, h := hs[..|hs| - 1], hs[|hs| - 1];
      PassReaches(m, before, limit, s);
      var now, q := RunFrom(Happened(m, FlushBegun, limit), before, limit).queues(s), m.queues(s);
      var done, rows := OutcomesOf(before), RowsFor(before, s);
      var own := if Place(s) < |done| then done[Place(s)] else if h.WriteEnded? then h.outcome else Wrote;
      var row := if h.Arrived? then h.row else Row(s, "", 0, 0);
      ArrivalOrEnd(q, now, rows, row, own, limit);
      if !(h.Arrived? && h.row.stream == s) {
        assert RowsFor(hs, s) == rows;
      }
    }
  }

  /** A failure stops no later write: whatever the four outcomes and whatever arrives meanwhile, once they are in
      the flush is over and every stream has been answered by its own outcome, with its batch written, put back
      in front of what arrived, or gone. */
  lemma FlushReachesEveryStream(m: Machine, hs: seq<Happening>, limit: nat)
    requires RowsAndWrites(hs) && |OutcomesOf(hs)| == |ORDER|
    requires forall s: Stream :: |m.queues(s).buffer| + |RowsFor(hs, s)| <= limit
    ensures var done := RunFrom(Happened(m, FlushBegun, limit), hs, limit);
      && done.turn == IDLE
      && forall s: Stream :: Settled(m.queues(s), done.queues(s), OutcomesOf(hs)[Place(s)], RowsFor(hs, s))
  {
    PassReaches(m, hs, limit, Books);
    forall s: Stream
      ensures var done := RunFrom(Happened(m, FlushBegun, limit), hs, limit);
        Settled(m.queues(s), done.queues(s), OutcomesOf(hs)[Place(s)], RowsFor(hs, s))
    {
      PassReaches(m, hs, limit, s);
    }
  }

  // ---- the throttle ---------------------------------------------------

  datatype Snapshot = Snapshot(symbol: Symbol, stamp: real)

  predicate Stores(last: map<Symbol, real>, interval: real, snap: Snapshot) {
    interval <= 0.0 || snap.symbol !in last || snap.stamp - last[snap.symbol] >= interval
  }

  function Remembered(last: map<Symbol, real>, interval: real, snap: Snapshot): map<Symbol, real> {
    if interval > 0.0 && Stores(last, interval, snap) then last[snap.symbol := snap.stamp] else last
  }

  function LastStored(interval: real, snaps: seq<Snapshot>): map<Symbol, real> {
    if snaps == [] then map[]
    else Remembered(LastStored(interval, snaps[..|snaps| - 1]), interval, snaps[|snaps| - 1])
  }

  predicate StoredAt(interval: real, snaps: seq<Snapshot>, i: nat)
    requires i < |snaps|
  {
    Stores(LastStored(interval, snaps[..i]), interval, snaps[i])
  }

  lemma {:induction false} LastStoredIsLatest(interval: real, snaps: seq<Snapshot>, i: nat)
    requires interval > 0.0 && i < |snaps| && StoredAt(interval, snaps, i)
    ensures var last := LastStored(interval, snaps);
      snaps[i].symbol in last && last[snaps[i].symbol] >= snaps[i].stamp
    decreases |snaps|
  {
    var before := snaps[..|snaps| - 1];
    if i < |before| {
      assert before[..i] == snaps[..i];
      LastStoredIsLatest(interval, before, i);
    }
  }

  /** Per symbol, stored snapshots are at least one interval apart, whatever else arrives in between. */
  lemma StoredSnapshotsAreSpaced(interval: real, snaps: seq<Snapshot>, i: nat, j: nat)
    requires interval > 0.0 && i < j < |snaps| && snaps[i].symbol == snaps[j].symbol
    requires StoredAt(interval, snaps, i) && StoredAt(interval, snaps, j)
    ensures snaps[j].stamp - snaps[i].stamp >= interval
  {
    assert snaps[..j][..i] == snaps[..i];
    LastStoredIsLatest(interval, snaps[..j], i);
  }

  // ---- the mutable recorder -------------------------------------------

  /** A Python list: a failed write splices rows back into the object it was given. */
  class RowList {
    var rows: seq<Row>

    constructor ()
      ensures rows == []
    {
      rows := [];
    }

    method Append(row: Row)
      modifies this
      ensures rows == old(rows) + [row]
    {
      rows := rows + [row];
    }
  }

  /** One event as the recorder receives it; an unclosed candle is not a row. */
  datatype Received = Recordable(row: Row, stamp: real) | Unclosed

  /** How many rows of a pending batch an outcome writes. */
  function Sent(pending: Option<seq<Row>>, outcome: Outcome): nat {
    if outcome == Wrote && pending.Some? then |pending.value| else 0
  }

  class MarketRecorder {
    var bookBuffer: RowList
    var metricBuffer: RowList
    var fundingBuffer: RowList
    var candleBuffer: RowList
    var lastBookAt: map<Symbol, real>
    var booksThrottled: nat
    var rowsWritten: nat
    const bookInterval: real
    const batchSize: nat
    const maxRetryBuffer: nat
    // What each stream has handed to a write that is pending, has had written, and has accepted.
    ghost var pendingRows: Stream -> Option<seq<Row>>
    ghost var writtenRows: Stream -> seq<Row>
    ghost var acceptedRows: Stream -> seq<Row>

    function Buffer(s: Stream): RowList
      reads this
    {
      match s
      case Books => bookBuffer
      case Metrics => metricBuffer
      case Funding => fundingBuffer
      case Candles => candleBuffer
    }

    ghost function Buffers(): set<object>
      reads this
    {
      {bookBuffer, metricBuffer, fundingBuffer, candleBuffer}
    }

    /** One stream of the recorder as a queue. */
    ghost function Value(s: Stream): Queue
      reads this, Buffer(s)
    {
      Queue(Buffer(s).rows, pendingRows(s), writtenRows(s), acceptedRows(s))
    }

    ghost predicate Valid()
      reads this
    {
      forall s: Stream, t: Stream :: s != t ==> Buffer(s) != Buffer(t)
    }

    constructor (bookInterval: real, batchSize: nat, maxRetryBuffer: nat)
      ensures Valid() && lastBookAt == map[] && booksThrottled == rowsWritten == 0
      ensures forall s: Stream :: fresh(Buffer(s)) && Value(s) == EMPTY
      ensures this.bookInterval == bookInterval && this.batchSize == batchSize && this.maxRetryBuffer == maxRetryBuffer
    {
      bookBuffer := new RowList();
      metricBuffer := new RowList();
      fundingBuffer := new RowList();
      candleBuffer := new RowList();
      lastBookAt, booksThrottled, rowsWritten := map[], 0, 0;
      this.bookInterval, this.batchSize, this.maxRetryBuffer := bookInterval, batchSize, maxRetryBuffer;
      pendingRows, writtenRows, acceptedRows := (s: Stream) => None, (s: Stream) => [], (s: Stream) => [];
    }

    method ShouldStoreBook(snap: Snapshot) returns (store: bool)
      modifies this`lastBookAt
      ensures store <==> Stores(old(lastBookAt), bookInterval, snap)
      ensures lastBookAt == Remembered(old(lastBookAt), bookInterval, snap)
    {
      if bookInterval <= 0.0 {
        return true;
      }
      if snap.symbol in lastBookAt && snap.stamp - lastBookAt[snap.symbol] < bookInterval {
        return false;
      }
      lastBookAt := lastBookAt[snap.symbol := snap.stamp];
      return true;
    }

    /** Buffer one row; a throttled book is only counted. */
    method BufferRow(row: Row, stamp: real) returns (accepted: bool)
      requires Valid()
      modifies this`lastBookAt, this`booksThrottled, this`acceptedRows, Buffer(row.stream)
      ensures Valid() && forall s: Stream :: Buffer(s) == old(Buffer(s))
      ensures accepted <==> (row.stream == Books ==> Stores(old(lastBookAt), bookInterval, Snapshot(row.symbol, stamp)))
      ensures forall s: Stream :: Value(s) == if accepted && s == row.stream
                                              then Stepped(old(Value(s)), Accept(row), maxRetryBuffer)
                                              else old(Value(s))
      ensures booksThrottled == old(booksThrottled) + (if accepted then 0 else 1)
      ensures lastBookAt == if row.stream == Books
                            then Remembered(old(lastBookAt), bookInterval, Snapshot(row.symbol, stamp))
                            else old(lastBookAt)
    {
      accepted := true;
      if row.stream == Books {
        accepted := ShouldStoreBook(Snapshot(row.symbol, stamp));
      }
      if accepted {
        Buffer(row.stream).Append(row);
        ghost var sofar, rows := acceptedRows, acceptedRows(row.stream) + [row];
        acceptedRows := (s: Stream) => if s == row.stream then rows else sofar(s);
      } else {
        booksThrottled := booksThrottled + 1;
      }
      assert forall s: Stream :: Buffer(s) == old(Buffer(s));
    }

    /** The locked part of a flush: every buffer is exchanged for an empty one. */
    method SwapBuffers() returns (books: RowList, metrics: RowList, funding: RowList, candles: RowList)
      requires Valid()
      modifies this`bookBuffer, this`metricBuffer, this`fundingBuffer, this`candleBuffer, this`pendingRows
      ensures Valid()
      ensures books == old(bookBuffer) && metrics == old(metricBuffer)
      ensures funding == old(fundingBuffer) && candles == old(candleBuffer)
      ensures forall s: Stream :: fresh(Buffer(s)) && Value(s) == Stepped(old(Value(s)), Swap, maxRetryBuffer)
    {
      ghost var b, m, f, c := bookBuffer.rows, metricBuffer.rows, fundingBuffer.rows, candleBuffer.rows;
      pendingRows := (s: Stream) => match s case Books => Some(b) case Metrics => Some(m) case Funding => Some(f) case Candles => Some(c);
      books, metrics, funding, candles := bookBuffer, metricBuffer, fundingBuffer, candleBuffer;
      bookBuffer := new RowList();
      metricBuffer := new RowList();
      fundingBuffer := new RowList();
      candleBuffer := new RowList();
    }

    /** What one stream's write does once its outcome is known; an unset sink is the outcome `Vanished`. */
    method WriteBack(rows: RowList, target: RowList, outcome: Outcome) returns (written: nat)
      requires rows != target
      modifies target
      ensures rows.rows == old(rows.rows)
      ensures target.rows == if outcome == Threw && rows.rows != []
                             then Truncated(rows.rows + old(target.rows), maxRetryBuffer)
                             else old(target.rows)
      ensures written == if outcome == Wrote then |rows.rows| else 0
    {
      if rows.rows == [] || outcome == Vanished {
        return 0;
      }
      if outcome == Wrote {
        return |rows.rows|;
      }
      target.rows := rows.rows + target.rows;
      if |target.rows| > maxRetryBuffer {
        target.rows := target.rows[..maxRetryBuffer];
      }
      return 0;
    }

    /** One stream's write of the rows its last swap took, no other swap having happened since. */
    method Write(stream: Stream, rows: RowList, outcome: Outcome) returns (written: nat)
      requires Valid() && rows != Buffer(stream) && pendingRows(stream) == Some(rows.rows)
      modifies this`pendingRows, this`writtenRows, Buffer(stream)
      ensures Valid() && forall s: Stream :: Buffer(s) == old(Buffer(s))
      ensures forall s: Stream :: Value(s) == if s == stream
                                              then Stepped(old(Value(s)), Answer(outcome), maxRetryBuffer)
                                              else old(Value(s))
      ensures forall s: Stream :: s != stream ==> pendingRows(s) == old(pendingRows(s))
      ensures written == Sent(old(pendingRows(stream)), outcome)
    {
      written := WriteBack(rows, Buffer(stream), outcome);
      ghost var waiting, done, sent := pendingRows, writtenRows, rows.rows;
      pendingRows := (s: Stream) => if s == stream then None else waiting(s);
      writtenRows := (s: Stream) => if s == stream && outcome == Wrote then done(s) + sent else done(s);
      assert forall s: Stream :: Buffer(s) == old(Buffer(s));
    }

    /** The four writes, one after the other whatever becomes of each. */
    method WriteAll(books: RowList, metrics: RowList, funding: RowList, candles: RowList, outcomes: Stream -> Outcome)
      returns (written: nat)
      requires Valid()
      requires forall s: Stream :: books != Buffer(s) && metrics != Buffer(s) && funding != Buffer(s) && candles != Buffer(s)
      requires pendingRows(Books) == Some(books.rows) && pendingRows(Metrics) == Some(metrics.rows)
      requires pendingRows(Funding) == Some(funding.rows) && pendingRows(Candles) == Some(candles.rows)
      modifies this`pendingRows, this`writtenRows, Buffers()
      ensures Valid() && forall s: Stream :: Buffer(s) == old(Buffer(s))
      ensures Value(Books) == Stepped(old(Value(Books)), Answer(outcomes(Books)), maxRetryBuffer)
      ensures Value(Metrics) == Stepped(old(Value(Metrics)), Answer(outcomes(Metrics)), maxRetryBuffer)
      ensures Value(Funding) == Stepped(old(Value(Funding)), Answer(outcomes(Funding)), maxRetryBuffer)
      ensures Value(Candles) == Stepped(old(Value(Candles)), Answer(outcomes(Candles)), maxRetryBuffer)
      ensures written == Sent(old(pendingRows(Books)), outcomes(Books)) + Sent(old(pendingRows(Metrics)), outcomes(Metrics))
                         + Sent(old(pendingRows(Funding)), outcomes(Funding))
                         + Sent(old(pendingRows(Candles)), outcomes(Candles))
    {
      var n0 := Write(Books, books, outcomes(Books));
      var n1 := Write(Metrics, metrics, outcomes(Metrics));
      var n2 := Write(Funding, funding, outcomes(Funding));
      var n3 := Write(Candles, candles, outcomes(Candles));
      written := n0 + n1 + n2 + n3;
    }

    /** How many rows a flush with these outcomes writes. */
    function Writable(outcomes: Stream -> Outcome): nat
      reads this, bookBuffer, metricBuffer, fundingBuffer, candleBuffer
    {
      Sent(Some(bookBuffer.rows), outcomes(Books)) + Sent(Some(metricBuffer.rows), outcomes(Metrics))
      + Sent(Some(fundingBuffer.rows), outcomes(Funding)) + Sent(Some(candleBuffer.rows), outcomes(Candles))
    }

    /** The swap, then every stream's write. */
    method FlushRows(outcomes: Stream -> Outcome) returns (written: nat)
      requires Valid()
      modifies this`bookBuffer, this`metricBuffer, this`fundingBuffer, this`candleBuffer
      modifies this`pendingRows, this`writtenRows
      ensures Valid() && forall s: Stream :: fresh(Buffer(s))
      ensures forall s: Stream ::
                Value(s) == Stepped(Stepped(old(Value(s)), Swap, maxRetryBuffer), Answer(outcomes(s)), maxRetryBuffer)
      ensures written == old(Writable(outcomes))
    {
      var books, metrics, funding, candles := SwapBuffers();
      assert Buffers() == {Buffer(Books), Buffer(Metrics), Buffer(Funding), Buffer(Candles)};
      written := WriteAll(books, metrics, funding, candles, outcomes);
    }

    /** One flush, with its count. */
    method Flush(outcomes: Stream -> Outcome) returns (written: nat)
      requires Valid()
      modifies this`bookBuffer, this`metricBuffer, this`fundingBuffer, this`candleBuffer
      modifies this`pendingRows, this`writtenRows, this`rowsWritten
      ensures Valid() && forall s: Stream :: fresh(Buffer(s))
      ensures forall s: Stream ::
                Value(s) == Stepped(Stepped(old(Value(s)), Swap, maxRetryBuffer), Answer(outcomes(s)), maxRetryBuffer)
      ensures written == old(Writable(outcomes)) && rowsWritten == old(rowsWritten) + written
    {
      written := FlushRows(outcomes);
      AddWritten(written);
    }

    method AddWritten(written: nat)
      modifies this`rowsWritten
      ensures rowsWritten == old(rowsWritten) + written
      ensures forall s: Stream :: Buffer(s) == old(Buffer(s)) && Value(s) == old(Value(s))
    {
      rowsWritten := rowsWritten + written;
    }

    /** Handle one event, flushing when the buffers together have reached the batch size. */
    method Handle(event: Received, outcomes: Stream -> Outcome) returns (accepted: bool, flushed: bool)
      requires Valid()
      modifies this, Buffers()
      ensures Valid()
      ensures accepted <==> event.Recordable? && (event.row.stream == Books ==>
                Stores(old(lastBookAt), bookInterval, Snapshot(event.row.symbol, event.stamp)))
      ensures forall s: Stream ::
                var q := if accepted && s == event.row.stream then Stepped(old(Value(s)), Accept(event.row), maxRetryBuffer)
                         else old(Value(s));
                Value(s) == if flushed then Stepped(Stepped(q, Swap, maxRetryBuffer), Answer(outcomes(s)), maxRetryBuffer) else q
      ensures flushed <==> old(Buffered()) + (if accepted then 1 else 0) >= batchSize
      ensures booksThrottled == old(booksThrottled) + (if event.Recordable? && !accepted then 1 else 0)
      ensures lastBookAt == if event.Recordable? && event.row.stream == Books
                            then Remembered(old(lastBookAt), bookInterval, Snapshot(event.row.symbol, event.stamp))
                            else old(lastBookAt)
    {
      accepted := false;
      if event.Recordable? {
        accepted := BufferRow(event.row, event.stamp);
      }
      assert old(Buffered()) == |old(Value(Books)).buffer| + |old(Value(Metrics)).buffer|
                                + |old(Value(Funding)).buffer| + |old(Value(Candles)).buffer|;
      assert Buffered() == |Value(Books).buffer| + |Value(Metrics).buffer| + |Value(Funding).buffer| + |Value(Candles).buffer|;
      flushed := Buffered() >= batchSize;
      if flushed {
        var written := Flush(outcomes);
      }
    }

    function Buffered(): nat
      reads this, bookBuffer, metricBuffer, fundingBuffer, candleBuffer
    {
      |bookBuffer.rows| + |metricBuffer.rows| + |fundingBuffer.rows| + |candleBuffer.rows|
    }
  }
}
