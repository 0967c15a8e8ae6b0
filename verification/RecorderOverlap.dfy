/** Flushes of one stream that overlap: the recorder's lock covers the buffer swap only, so several batches
    may be in flight, and a failed one is spliced into whichever list its write was given. */
module RecorderOverlap {
  import opened Recorder
  import opened Schemas

  // ---- lists by identity ----------------------------------------------

  /** The write of a batch: the list it puts rows back into on failure, and the rows it was given. */
  datatype Writing = Writing(target: nat, sent: seq<Row>)

  /** A batch swapped out by a flush. Lists are numbered as they are made: `id` names the batch's own list,
      whose rows can still grow when another batch is put back into it. */
  datatype Flight = Flight(id: nat, rows: seq<Row>, write: Option<Writing>)

  /** One stream: the batches in flight, oldest first, the current list with its number, what is written and
      (for the record) accepted. Any other list is never read again. */
  datatype Store = Store(flights: seq<Flight>, current: nat, buffer: seq<Row>, written: seq<Row>, accepted: seq<Row>)

  const FRESH := Store([], 0, [], [], [])

  /** The moves between awaits. A batch is abandoned by a cancelled flush task or an unset sink. */
  datatype Move = Receive(row: Row) | Begin | Start(i: nat) | Succeed(i: nat) | Fail(i: nat) | Abandon(i: nat)

  predicate Enabled(s: Store, m: Move) {
    match m
    case Receive(_) => true
    case Begin => true
    case Start(i) => i < |s.flights| && s.flights[i].write == None
    case Succeed(i) => i < |s.flights| && s.flights[i].write.Some?
    case Fail(i) => i < |s.flights| && s.flights[i].write.Some?
    case Abandon(i) => i < |s.flights|
  }

  function Without(fs: seq<Flight>, i: nat): seq<Flight>
    requires i < |fs|
  {
    fs[..i] + fs[i + 1..]
  }

  function Grown(f: Flight, rows: seq<Row>, limit: nat): Flight {
    f.(rows := Truncated(rows + f.rows, limit))
  }

  /** Rows put back in front of a list that is still in flight. */
  function Refilled(fs: seq<Flight>, target: nat, rows: seq<Row>, limit: nat): (r: seq<Flight>)
    ensures |r| == |fs|
    ensures forall k :: 0 <= k < |fs| ==> r[k] == if fs[k].id == target then Grown(fs[k], rows, limit) else fs[k]
  {
    seq(|fs|, k requires 0 <= k < |fs| => if fs[k].id == target then Grown(fs[k], rows, limit) else fs[k])
  }

  /** `buffer[:0] = rows; del buffer[limit:]` on the list a write was given. */
  function PutBack(s: Store, target: nat, rows: seq<Row>, limit: nat): Store {
    if target == s.current then s.(buffer := Truncated(rows + s.buffer, limit))
    else s.(flights := Refilled(s.flights, target, rows, limit))
  }

  /** A write given an empty batch returns at once; a move that is not possible changes nothing. */
  function Moved(s: Store, m: Move, limit: nat): Store {
    if !Enabled(s, m) then s
    else
      match m
      case Receive(row) => s.(buffer := s.buffer + [row], accepted := s.accepted + [row])
      case Begin => s.(flights := s.flights + [Flight(s.current, s.buffer, None)], current := s.current + 1, buffer := [])
      case Start(i) =>
        var f := s.flights[i];
        if f.rows == [] then s.(flights := Without(s.flights, i))
        else s.(flights := s.flights[i := f.(write := Some(Writing(s.current, f.rows)))])
      case Succeed(i) => s.(written := s.written + s.flights[i].write.value.sent, flights := Without(s.flights, i))
      case Fail(i) =>
        PutBack(s.(flights := Without(s.flights, i)), s.flights[i].write.value.target, s.flights[i].rows, limit)
      case Abandon(i) => s.(flights := Without(s.flights, i))
  }

  function Run(moves: seq<Move>, limit: nat): Store {
    if moves == [] then FRESH else Moved(Run(moves[..|moves| - 1], limit), moves[|moves| - 1], limit)
  }

  // ---- what can still be written --------------------------------------

  /** The rows of the batches in flight, oldest batch first. */
  function Waiting(fs: seq<Flight>): seq<Row> {
    if fs == [] then [] else fs[0].rows + Waiting(fs[1..])
  }

  /** Everything written or still reachable. */
  function Line(s: Store): seq<Row> {
    s.written + Waiting(s.flights) + s.buffer
  }

  predicate Listed(fs: seq<Flight>, id: nat) {
    exists k :: 0 <= k < |fs| && fs[k].id == id
  }

  /** The moves that lose rows: a success whose batch has grown since its write started, a failure put back into a
      list that is neither current nor in flight any more, and a batch abandoned with rows in it. */
  predicate Lossy(s: Store, m: Move) {
    && Enabled(s, m)
    && match m
       case Succeed(i) => s.flights[i].write.value.sent != s.flights[i].rows
       case Fail(i) =>
         var target := s.flights[i].write.value.target;
         target != s.current && !Listed(Without(s.flights, i), target)
       case Abandon(i) => s.flights[i].rows != []
       case _ => false
  }

  /** The retry bound bites on the list that takes a failed batch back. */
  predicate Overflows(s: Store, m: Move, limit: nat) {
    && m.Fail? && Enabled(s, m)
    && var f, rest := s.flights[m.i], Without(s.flights, m.i);
    && var target := f.write.value.target;
    && (|| (target == s.current && |f.rows + s.buffer| > limit)
        || exists k :: 0 <= k < |rest| && rest[k].id == target && |f.rows + rest[k].rows| > limit)
  }

  predicate NeverOverflows(moves: seq<Move>, limit: nat) {
    forall i :: 0 <= i < |moves| ==> !Overflows(Run(moves[..i], limit), moves[i], limit)
  }

  predicate NeverLossy(moves: seq<Move>, limit: nat) {
    forall i :: 0 <= i < |moves| ==> !Lossy(Run(moves[..i], limit), moves[i])
  }

  // ---- batches keep their identity ------------------------------------

  predicate Ascending(fs: seq<Flight>) {
    forall i, j :: 0 <= i < j < |fs| ==> fs[i].id < fs[j].id
  }

  predicate EndsWith(x: seq<Row>, y: seq<Row>) {
    |y| <= |x| && x[|x| - |y|..] == y
  }

  /** A started write was given rows that are still at the end of its batch, and a list younger than it. */
  predicate SoundWrite(f: Flight, current: nat) {
    f.write.Some? ==>
      f.write.value.sent != [] && f.id < f.write.value.target <= current && EndsWith(f.rows, f.write.value.sent)
  }

  predicate Sound(s: Store) {
    && Ascending(s.flights)
    && (forall i :: 0 <= i < |s.flights| ==> s.flights[i].id < s.current && SoundWrite(s.flights[i], s.current))
  }

  lemma GrownIsSound(f: Flight, rows: seq<Row>, limit: nat, current: nat)
    requires SoundWrite(f, current) && |rows + f.rows| <= limit
    ensures SoundWrite(Grown(f, rows, limit), current)
  {
    if f.write.Some? {
      var n := |f.rows| - |f.write.value.sent|;
      assert (rows + f.rows)[|rows| + n..] == f.rows[n..];
    }
  }

  lemma RestIsSound(s: Store, i: nat)
    requires Sound(s) && i < |s.flights|
    ensures Sound(s.(flights := Without(s.flights, i)))
  {
  }

  lemma MoveKeepsSound(s: Store, m: Move, limit: nat)
    requires Sound(s) && !Overflows(s, m, limit)
    ensures Sound(Moved(s, m, limit))
  {
    if Enabled(s, m) && m.Fail? {
      RestIsSound(s, m.i);
      var rest, f := Without(s.flights, m.i), s.flights[m.i];
      forall k | 0 <= k < |rest| && rest[k].id == f.write.value.target && f.write.value.target != s.current
        ensures SoundWrite(Grown(rest[k], f.rows, limit), s.current)
      {
        GrownIsSound(rest[k], f.rows, limit, s.current);
      }
    } else if Enabled(s, m) && (m.Start? || m.Succeed? || m.Abandon?) {
      RestIsSound(s, m.i);
    }
  }

  // ---- where a batch stands in the line -------------------------------

  lemma {:induction false} WaitingSplits(a: seq<Flight>, b: seq<Flight>)
    ensures Waiting(a + b) == Waiting(a) + Waiting(b)
  {
    if a == [] {
      assert a + b == b;
    } else {
      assert (a + b)[1..] == a[1..] + b;
      WaitingSplits(a[1..], b);
    }
  }

  lemma WaitingAround(fs: seq<Flight>, i: nat)
    requires i < |fs|
    ensures Waiting(fs) == Waiting(fs[..i]) + fs[i].rows + Waiting(fs[i + 1..])
    ensures Waiting(Without(fs, i)) == Waiting(fs[..i]) + Waiting(fs[i + 1..])
  {
    WaitingSplits(fs[..i], fs[i + 1..]);
    WaitingSplits(fs[..i], fs[i..]);
    assert fs[..i] + fs[i..] == fs && fs[i..][1..] == fs[i + 1..];
  }

  lemma WaitingReplaced(fs: seq<Flight>, i: nat, f: Flight)
    requires i < |fs|
    ensures Waiting(fs[i := f]) == Waiting(fs[..i]) + f.rows + Waiting(fs[i + 1..])
  {
    WaitingAround(fs[i := f], i);
    assert fs[i := f][..i] == fs[..i] && fs[i := f][i + 1..] == fs[i + 1..];
  }

  /** Putting rows back into the one batch of that number. */
  lemma RefilledAt(fs: seq<Flight>, k: nat, rows: seq<Row>, limit: nat)
    requires k < |fs| && |rows + fs[k].rows| <= limit
    requires Ascending(fs)
    ensures Waiting(Refilled(fs, fs[k].id, rows, limit)) == Waiting(fs[..k]) + rows + fs[k].rows + Waiting(fs[k + 1..])
  {
    assert Refilled(fs, fs[k].id, rows, limit) == fs[k := Grown(fs[k], rows, limit)];
    WaitingReplaced(fs, k, Grown(fs[k], rows, limit));
  }

  /** The batches older than a list. */
  function Until(fs: seq<Flight>, id: nat): seq<Flight> {
    if fs == [] || fs[0].id == id then [] else [fs[0]] + Until(fs[1..], id)
  }

  lemma {:induction false} UntilIs(fs: seq<Flight>, id: nat, k: nat)
    requires k <= |fs| && (k < |fs| ==> fs[k].id == id) && forall j :: 0 <= j < k ==> fs[j].id != id
    ensures Until(fs, id) == fs[..k]
  {
    if k > 0 {
      UntilIs(fs[1..], id, k - 1);
      assert fs[..k] == [fs[0]] + fs[1..][..k - 1];
    }
  }

  /** The rows a move carries its batch past: for a success the older batches, for a failure the batches between
      it and the list it goes back into. */
  function Overtaken(s: Store, m: Move): seq<Row> {
    if !Enabled(s, m) then []
    else
      match m
      case Succeed(i) => Waiting(s.flights[..i])
      case Fail(i) => Waiting(Until(s.flights[i + 1..], s.flights[i].write.value.target))
      case _ => []
  }

  lemma WaitingBetween(fs: seq<Flight>, i: nat, j: nat)
    requires i < j < |fs|
    ensures Waiting(fs) == Waiting(fs[..i]) + fs[i].rows + Waiting(fs[i + 1..j]) + (fs[j].rows + Waiting(fs[j + 1..]))
  {
    WaitingAround(fs, i);
    WaitingAround(fs[i + 1..], j - i - 1);
    assert fs[i + 1..][..j - i - 1] == fs[i + 1..j] && fs[i + 1..][j - i..] == fs[j + 1..];
    Flattened(Waiting(fs[..i]), fs[i].rows, Waiting(fs[i + 1..j]), fs[j].rows, Waiting(fs[j + 1..]));
  }

  lemma Flattened<T>(a: seq<T>, b: seq<T>, c: seq<T>, d: seq<T>, e: seq<T>)
    ensures a + b + (c + d + e) == a + b + c + (d + e)
  {
  }

  lemma Framed<T>(w: seq<T>, a: seq<T>, b: seq<T>, c: seq<T>, rest: seq<T>, t: seq<T>)
    ensures w + (a + b + c + rest) + t == w + a + b + c + (rest + t)
  {
  }

  lemma FramedThree<T>(w: seq<T>, a: seq<T>, b: seq<T>, c: seq<T>, t: seq<T>)
    ensures w + (a + b + c) + t == w + a + b + c + t
    ensures w + (a + b) + (c + t) == w + a + b + c + t
  {
  }

  lemma WaitingRefilled(fs: seq<Flight>, i: nat, j: nat, limit: nat)
    requires i < j < |fs| && Ascending(fs) && |fs[i].rows + fs[j].rows| <= limit
    ensures Waiting(Refilled(Without(fs, i), fs[j].id, fs[i].rows, limit))
            == Waiting(fs[..i]) + Waiting(fs[i + 1..j]) + fs[i].rows + (fs[j].rows + Waiting(fs[j + 1..]))
  {
    var rest := Without(fs, i);
    assert rest[j - 1] == fs[j];
    RefilledAt(rest, j - 1, fs[i].rows, limit);
    assert rest[..j - 1] == fs[..i] + fs[i + 1..j] && rest[j..] == fs[j + 1..];
    WaitingSplits(fs[..i], fs[i + 1..j]);
    Paired(Waiting(fs[..i]) + Waiting(fs[i + 1..j]), fs[i].rows, fs[j].rows, Waiting(fs[j + 1..]));
  }

  lemma Paired<T>(a: seq<T>, b: seq<T>, c: seq<T>, d: seq<T>)
    ensures a + b + c + d == a + b + (c + d)
  {
  }

  /** A batch put back into the current list jumps over every younger batch. */
  lemma FailIntoCurrent(s: Store, i: nat, limit: nat)
    requires Sound(s) && Enabled(s, Fail(i)) && !Overflows(s, Fail(i), limit)
    requires s.flights[i].write.value.target == s.current
    ensures var head, batch, past := s.written + Waiting(s.flights[..i]), s.flights[i].rows, Overtaken(s, Fail(i));
      && Line(s) == head + batch + past + s.buffer
      && Line(Moved(s, Fail(i), limit)) == head + past + batch + s.buffer
  {
    var younger := s.flights[i + 1..];
    WaitingAround(s.flights, i);
    UntilIs(younger, s.current, |younger|);
    assert younger[..|younger|] == younger;
    FramedThree(s.written, Waiting(s.flights[..i]), s.flights[i].rows, Waiting(younger), s.buffer);
    FramedThree(s.written, Waiting(s.flights[..i]), Waiting(younger), s.flights[i].rows, s.buffer);
  }

  /** Batch j and all behind it. */
  function From(s: Store, j: nat): seq<Row>
    requires j < |s.flights|
  {
    s.flights[j].rows + Waiting(s.flights[j + 1..]) + s.buffer
  }

  lemma LineBetween(s: Store, i: nat, j: nat)
    requires i < j < |s.flights|
    ensures Line(s) == s.written + Waiting(s.flights[..i]) + s.flights[i].rows + Waiting(s.flights[i + 1..j]) + From(s, j)
  {
    var fs := s.flights;
    WaitingBetween(fs, i, j);
    Framed(s.written, Waiting(fs[..i]), fs[i].rows, Waiting(fs[i + 1..j]), fs[j].rows + Waiting(fs[j + 1..]), s.buffer);
  }

  lemma LineRefilled(s: Store, i: nat, j: nat, limit: nat)
    requires Sound(s) && i < j < |s.flights| && |s.flights[i].rows + s.flights[j].rows| <= limit
    ensures Line(PutBack(s.(flights := Without(s.flights, i)), s.flights[j].id, s.flights[i].rows, limit))
            == s.written + Waiting(s.flights[..i]) + Waiting(s.flights[i + 1..j]) + s.flights[i].rows + From(s, j)
  {
    var fs := s.flights;
    WaitingRefilled(fs, i, j, limit);
    Framed(s.written, Waiting(fs[..i]), Waiting(fs[i + 1..j]), fs[i].rows, fs[j].rows + Waiting(fs[j + 1..]), s.buffer);
  }

  /** A batch put back into a younger batch jumps over those between them. */
  lemma FailIntoFlight(s: Store, i: nat, j: nat, limit: nat)
    requires Sound(s) && Enabled(s, Fail(i)) && i < j < |s.flights| && |s.flights[i].rows + s.flights[j].rows| <= limit
    requires s.flights[i].write.value.target == s.flights[j].id
    ensures var head, batch, past := s.written + Waiting(s.flights[..i]), s.flights[i].rows, Overtaken(s, Fail(i));
      && Line(s) == head + batch + past + From(s, j)
      && Line(Moved(s, Fail(i), limit)) == head + past + batch + From(s, j)
  {
    LineBetween(s, i, j);
    LineRefilled(s, i, j, limit);
    UntilIs(s.flights[i + 1..], s.flights[j].id, j - i - 1);
    assert s.flights[i + 1..][..j - i - 1] == s.flights[i + 1..j];
  }

  /** The list a lossless failure goes back into, when it is not the current one, is a younger batch. */
  lemma TargetIsYounger(s: Store, i: nat, limit: nat) returns (j: nat)
    requires Sound(s) && Enabled(s, Fail(i)) && !Overflows(s, Fail(i), limit) && !Lossy(s, Fail(i))
    requires s.flights[i].write.value.target != s.current
    ensures i < j < |s.flights| && s.flights[j].id == s.flights[i].write.value.target
    ensures |s.flights[i].rows + s.flights[j].rows| <= limit
  {
    var rest := Without(s.flights, i);
    var k :| 0 <= k < |rest| && rest[k].id == s.flights[i].write.value.target;
    assert k >= i;
    j := k + 1;
  }

  /** A failure that loses nothing swaps its batch with the rows it overtakes, and leaves the rest in place. */
  lemma FailMovesBatch(s: Store, i: nat, limit: nat) returns (tail: seq<Row>)
    requires Sound(s) && Enabled(s, Fail(i)) && !Overflows(s, Fail(i), limit) && !Lossy(s, Fail(i))
    ensures var head, batch, past := s.written + Waiting(s.flights[..i]), s.flights[i].rows, Overtaken(s, Fail(i));
      && Line(s) == head + batch + past + tail
      && Line(Moved(s, Fail(i), limit)) == head + past + batch + tail
  {
    if s.flights[i].write.value.target == s.current {
      FailIntoCurrent(s, i, limit);
      tail := s.buffer;
    } else {
      var j := TargetIsYounger(s, i, limit);
      FailIntoFlight(s, i, j, limit);
      tail := From(s, j);
    }
  }

  lemma SucceedMovesBatch(s: Store, i: nat, limit: nat) returns (tail: seq<Row>)
    requires Enabled(s, Succeed(i))
    ensures var past, batch := Overtaken(s, Succeed(i)), s.flights[i];
      && Line(s) == s.written + past + batch.rows + tail
      && Line(Moved(s, Succeed(i), limit)) == s.written + batch.write.value.sent + past + tail
  {
    WaitingAround(s.flights, i);
    tail := Waiting(s.flights[i + 1..]) + s.buffer;
  }

  // ---- conservation over every run ------------------------------------

  /** What a move adds to the accepted rows. */
  function Added(m: Move): seq<Row> {
    if m.Receive? then [m.row] else []
  }

  lemma SucceedConserves(s: Store, i: nat, limit: nat)
    requires Enabled(s, Succeed(i)) && !Lossy(s, Succeed(i))
    ensures multiset(Line(Moved(s, Succeed(i), limit))) == multiset(Line(s))
  {
    var tail := SucceedMovesBatch(s, i, limit);
    SwappedAlike(s.written, s.flights[i].rows, Overtaken(s, Succeed(i)), tail);
  }

  lemma FailConserves(s: Store, i: nat, limit: nat)
    requires Sound(s) && Enabled(s, Fail(i)) && !Overflows(s, Fail(i), limit) && !Lossy(s, Fail(i))
    ensures multiset(Line(Moved(s, Fail(i), limit))) == multiset(Line(s))
    ensures Moved(s, Fail(i), limit).accepted == s.accepted
  {
    var tail := FailMovesBatch(s, i, limit);
    SwappedAlike(s.written + Waiting(s.flights[..i]), s.flights[i].rows, Overtaken(s, Fail(i)), tail);
  }

  /** The moves that do not end a write leave the line as it is, but for a new row at its end. */
  lemma SteadyMove(s: Store, m: Move, limit: nat)
    requires !Lossy(s, m) && (Enabled(s, m) ==> !m.Succeed? && !m.Fail?)
    ensures Line(Moved(s, m, limit)) == Line(s) + Added(m)
    ensures Moved(s, m, limit).accepted == s.accepted + Added(m)
  {
    if Enabled(s, m) {
      match m {
        case Receive(row) =>
          assert Line(Moved(s, m, limit)) == Line(s) + [row];
        case Begin =>
          BeginKeepsLine(s, limit);
        case Start(i) =>
          StartKeepsLine(s, i, limit);
        case Abandon(i) =>
          AbandonDrops(s, i, limit);
      }
    }
  }

  lemma MoveConserves(s: Store, m: Move, limit: nat)
    requires Sound(s) && !Overflows(s, m, limit) && !Lossy(s, m)
    ensures multiset(Line(Moved(s, m, limit))) == multiset(Line(s) + Added(m))
    ensures Moved(s, m, limit).accepted == s.accepted + Added(m)
  {
    assert m.Receive? || Line(s) + Added(m) == Line(s);
    if Enabled(s, m) && m.Succeed? {
      SucceedConserves(s, m.i, limit);
    } else if Enabled(s, m) && m.Fail? {
      FailConserves(s, m.i, limit);
    } else {
      SteadyMove(s, m, limit);
    }
  }

  lemma BeginKeepsLine(s: Store, limit: nat)
    ensures Line(Moved(s, Begin, limit)) == Line(s)
  {
    WaitingSplits(s.flights, [Flight(s.current, s.buffer, None)]);
    assert Waiting([Flight(s.current, s.buffer, None)]) == s.buffer;
  }

  lemma StartKeepsLine(s: Store, i: nat, limit: nat)
    requires Enabled(s, Start(i))
    ensures Line(Moved(s, Start(i), limit)) == Line(s)
  {
    WaitingAround(s.flights, i);
    WaitingReplaced(s.flights, i, s.flights[i].(write := Some(Writing(s.current, s.flights[i].rows))));
  }

  lemma AbandonDrops(s: Store, i: nat, limit: nat)
    requires Enabled(s, Abandon(i))
    ensures |Line(Moved(s, Abandon(i), limit))| == |Line(s)| - |s.flights[i].rows|
    ensures s.flights[i].rows == [] ==> Line(Moved(s, Abandon(i), limit)) == Line(s)
  {
    WaitingAround(s.flights, i);
  }

  lemma SwappedAlike(head: seq<Row>, x: seq<Row>, y: seq<Row>, tail: seq<Row>)
    ensures multiset(head + x + y + tail) == multiset(head + y + x + tail)
  {
  }

  /** A lossy move leaves strictly fewer rows and accepts none. */
  lemma LossyMoveShrinks(s: Store, m: Move, limit: nat)
    requires Sound(s) && Lossy(s, m)
    ensures |Line(Moved(s, m, limit))| < |Line(s)| && Moved(s, m, limit).accepted == s.accepted
  {
    match m {
      case Succeed(i) =>
        var tail := SucceedMovesBatch(s, i, limit);
        assert SoundWrite(s.flights[i], s.current);
      case Fail(i) =>
        WaitingAround(s.flights, i);
        assert SoundWrite(s.flights[i], s.current);
        var rest := Without(s.flights, i);
        assert Refilled(rest, s.flights[i].write.value.target, s.flights[i].rows, limit) == rest;
      case Abandon(i) =>
        AbandonDrops(s, i, limit);
      case _ =>
    }
  }

  lemma NeverOverflowsUnfolds(moves: seq<Move>, limit: nat)
    requires moves != []
    ensures var before := moves[..|moves| - 1];
      NeverOverflows(moves, limit)
      <==> NeverOverflows(before, limit) && !Overflows(Run(before, limit), moves[|moves| - 1], limit)
  {
    var before := moves[..|moves| - 1];
    assert forall i :: 0 <= i < |before| ==> before[..i] == moves[..i];
  }

  lemma NeverLossyUnfolds(moves: seq<Move>, limit: nat)
    requires moves != []
    ensures var before := moves[..|moves| - 1];
      NeverLossy(moves, limit) <==> NeverLossy(before, limit) && !Lossy(Run(before, limit), moves[|moves| - 1])
  {
    var before := moves[..|moves| - 1];
    assert forall i :: 0 <= i < |before| ==> before[..i] == moves[..i];
  }

  /** Rows once out of reach stay out of reach. */
  predicate Balanced(s: Store, lossless: bool) {
    if lossless then multiset(Line(s)) == multiset(s.accepted) else |Line(s)| < |s.accepted|
  }

  lemma MoveKeepsBalance(s: Store, m: Move, limit: nat, lossless: bool)
    requires Sound(s) && !Overflows(s, m, limit) && Balanced(s, lossless)
    ensures Balanced(Moved(s, m, limit), lossless && !Lossy(s, m))
  {
    SameRowsSameNumber(Line(s), s.accepted);
    if Lossy(s, m) {
      LossyMoveShrinks(s, m, limit);
    } else {
      MoveConserves(s, m, limit);
      assert multiset(s.accepted + Added(m)) == multiset(s.accepted) + multiset(Added(m));
      assert multiset(Line(s) + Added(m)) == multiset(Line(s)) + multiset(Added(m));
      SameRowsSameNumber(Line(Moved(s, m, limit)), Line(s) + Added(m));
    }
  }

  lemma SameRowsSameNumber(x: seq<Row>, y: seq<Row>)
    ensures multiset(x) == multiset(y) ==> |x| == |y|
  {
    assert |multiset(x)| == |x| && |multiset(y)| == |y|;
  }

  lemma {:induction false} RunIsBalanced(moves: seq<Move>, limit: nat)
    requires NeverOverflows(moves, limit)
    ensures Sound(Run(moves, limit)) && Balanced(Run(moves, limit), NeverLossy(moves, limit))
  {
    if moves != [] {
      var before, m := moves[..|moves| - 1], moves[|moves| - 1];
      NeverOverflowsUnfolds(moves, limit);
      NeverLossyUnfolds(moves, limit);
      RunIsBalanced(before, limit);
      MoveKeepsSound(Run(before, limit), m, limit);
      MoveKeepsBalance(Run(before, limit), m, limit, NeverLossy(before, limit));
    }
  }

  /** Main result: over every run of one stream in which flushes overlap in any way and the retry bound never
      bites, every accepted row is written or still reachable, exactly once, if and only if no batch that had grown
      since its write started has succeeded, none has failed into a list neither current nor in flight, and none
      has been abandoned with rows in it. */
  lemma RowsSurviveIff(moves: seq<Move>, limit: nat)
    requires NeverOverflows(moves, limit)
    ensures var s := Run(moves, limit); multiset(Line(s)) == multiset(s.accepted) <==> NeverLossy(moves, limit)
  {
    RunIsBalanced(moves, limit);
    SameRowsSameNumber(Line(Run(moves, limit)), Run(moves, limit).accepted);
  }

  // ---- order ----------------------------------------------------------

  predicate Distinct(rows: seq<Row>) {
    forall i, j :: 0 <= i < j < |rows| ==> rows[i] != rows[j]
  }

  /** Swapping two neighbouring stretches of distinct rows changes the sequence unless one of them is empty. */
  lemma SwapShows(head: seq<Row>, x: seq<Row>, y: seq<Row>, tail: seq<Row>)
    requires Distinct(head + x + y + tail)
    ensures head + x + y + tail == head + y + x + tail <==> x == [] || y == []
  {
    if x != [] && y != [] {
      var line, other := head + x + y + tail, head + y + x + tail;
      assert line[|head|] == x[0] && line[|head| + |x|] == y[0] && other[|head|] == y[0];
    }
  }

  /** From rows in order, a move that loses nothing keeps them in order if and only if its batch overtakes none. */
  lemma OrderKeptIff(s: Store, m: Move, limit: nat)
    requires Sound(s) && Line(s) == s.accepted && Distinct(s.accepted)
    requires !Overflows(s, m, limit) && !Lossy(s, m)
    ensures var s' := Moved(s, m, limit); Line(s') == s'.accepted <==> Overtaken(s, m) == []
  {
    if Enabled(s, m) && m.Succeed? {
      var tail := SucceedMovesBatch(s, m.i, limit);
      assert SoundWrite(s.flights[m.i], s.current);
      SwapShows(s.written, Overtaken(s, m), s.flights[m.i].rows, tail);
    } else if Enabled(s, m) && m.Fail? {
      var tail := FailMovesBatch(s, m.i, limit);
      assert SoundWrite(s.flights[m.i], s.current);
      SwapShows(s.written + Waiting(s.flights[..m.i]), s.flights[m.i].rows, Overtaken(s, m), tail);
    } else {
      SteadyMove(s, m, limit);
    }
  }

  predicate NeverOvertakes(moves: seq<Move>, limit: nat) {
    forall i :: 0 <= i < |moves| ==> Overtaken(Run(moves[..i], limit), moves[i]) == []
  }

  lemma OrderKept(s: Store, m: Move, limit: nat)
    requires Sound(s) && Line(s) == s.accepted
    requires !Overflows(s, m, limit) && !Lossy(s, m) && Overtaken(s, m) == []
    ensures var s' := Moved(s, m, limit); Line(s') == s'.accepted
  {
    if Enabled(s, m) && m.Succeed? {
      var tail := SucceedMovesBatch(s, m.i, limit);
    } else if Enabled(s, m) && m.Fail? {
      var tail := FailMovesBatch(s, m.i, limit);
    } else {
      SteadyMove(s, m, limit);
    }
  }

  /** Order survives every run in which nothing is lost and no batch overtakes another's rows. */
  lemma {:induction false} OrderSurvives(moves: seq<Move>, limit: nat)
    requires NeverOverflows(moves, limit) && NeverLossy(moves, limit) && NeverOvertakes(moves, limit)
    ensures var s := Run(moves, limit); Line(s) == s.accepted
  {
    if moves != [] {
      var before, m := moves[..|moves| - 1], moves[|moves| - 1];
      NeverOverflowsUnfolds(moves, limit);
      NeverLossyUnfolds(moves, limit);
      assert forall i :: 0 <= i < |before| ==> before[..i] == moves[..i];
      OrderSurvives(before, limit);
      RunIsBalanced(before, limit);
      OrderKept(Run(before, limit), m, limit);
    }
  }

  // ---- flushes that do not overlap ------------------------------------

  predicate TakesTurns(moves: seq<Move>, limit: nat) {
    forall i :: 0 <= i < |moves| && moves[i] == Begin ==> Run(moves[..i], limit).flights == []
  }

  /** At most one batch is in flight, unchanged since its write started, with the current list to go back into. */
  predicate Alone(s: Store) {
    && |s.flights| <= 1
    && forall f :: f in s.flights && f.write.Some? ==> f.write.value == Writing(s.current, f.rows)
  }

  /** Overtakes nothing, and loses nothing but what it abandons. */
  predicate Tame(s: Store, m: Move) {
    Overtaken(s, m) == [] && (Lossy(s, m) ==> m.Abandon?)
  }

  lemma AloneMove(s: Store, m: Move, limit: nat)
    requires Sound(s) && Alone(s) && (m == Begin ==> s.flights == [])
    ensures Alone(Moved(s, m, limit)) && Tame(s, m)
  {
  }

  predicate AlwaysTame(moves: seq<Move>, limit: nat) {
    forall i :: 0 <= i < |moves| ==> Tame(Run(moves[..i], limit), moves[i])
  }

  lemma StaysTame(moves: seq<Move>, limit: nat)
    requires moves != [] && AlwaysTame(moves[..|moves| - 1], limit)
    requires Tame(Run(moves[..|moves| - 1], limit), moves[|moves| - 1])
    ensures AlwaysTame(moves, limit)
  {
    var before := moves[..|moves| - 1];
    assert forall i :: 0 <= i < |before| ==> before[..i] == moves[..i];
  }

  lemma TakesTurnsUnfolds(moves: seq<Move>, limit: nat)
    requires moves != [] && TakesTurns(moves, limit)
    ensures var before := moves[..|moves| - 1];
      TakesTurns(before, limit) && (moves[|moves| - 1] == Begin ==> Run(before, limit).flights == [])
  {
    var before := moves[..|moves| - 1];
    assert forall i :: 0 <= i < |before| ==> before[..i] == moves[..i];
  }

  lemma {:induction false} TurnsKeepAlone(moves: seq<Move>, limit: nat)
    requires TakesTurns(moves, limit) && NeverOverflows(moves, limit)
    ensures Alone(Run(moves, limit))
    ensures AlwaysTame(moves, limit)
  {
    if moves != [] {
      var before, m := moves[..|moves| - 1], moves[|moves| - 1];
      TakesTurnsUnfolds(moves, limit);
      NeverOverflowsUnfolds(moves, limit);
      TurnsKeepAlone(before, limit);
      RunIsBalanced(before, limit);
      AloneMove(Run(before, limit), m, limit);
      StaysTame(moves, limit);
    }
  }

  /** Without overlap and abandonment every row is kept, in order: what a failed flush put back is in front of
      what arrived meanwhile. */
  lemma TurnsKeepOrder(moves: seq<Move>, limit: nat)
    requires TakesTurns(moves, limit) && NeverOverflows(moves, limit)
    requires forall i :: 0 <= i < |moves| ==> !moves[i].Abandon?
    ensures var s := Run(moves, limit); Line(s) == s.accepted
  {
    TurnsKeepAlone(moves, limit);
    forall i | 0 <= i < |moves|
      ensures !Lossy(Run(moves[..i], limit), moves[i]) && Overtaken(Run(moves[..i], limit), moves[i]) == []
    {
      assert Tame(Run(moves[..i], limit), moves[i]);
    }
    OrderSurvives(moves, limit);
  }

  // ---- overlap loses rows ---------------------------------------------

  /** The shortest loss: the second flush's write has started when the first one fails, and succeeds before the
      row put back is seen again. */
  function LossMoves(a: Row, b: Row): seq<Move> {
    [Receive(a), Begin, Start(0), Receive(b), Begin, Start(1), Fail(0), Succeed(0)]
  }

  function LossState(a: Row, b: Row, k: nat): Store {
    var first, second := Flight(0, [a], None), Flight(1, [b], None);
    var started, other := first.(write := Some(Writing(1, [a]))), second.(write := Some(Writing(2, [b])));
    match k
    case 0 => FRESH
    case 1 => Store([], 0, [a], [], [a])
    case 2 => Store([first], 1, [], [], [a])
    case 3 => Store([started], 1, [], [], [a])
    case 4 => Store([started], 1, [b], [], [a, b])
    case 5 => Store([started, second], 2, [], [], [a, b])
    case 6 => Store([started, other], 2, [], [], [a, b])
    case 7 => Store([other.(rows := [a, b])], 2, [], [], [a, b])
    case _ => Store([], 2, [], [b], [a, b])
  }

  lemma LossStep(a: Row, b: Row, k: nat)
    requires k < |LossMoves(a, b)|
    ensures Moved(LossState(a, b, k), LossMoves(a, b)[k], 10) == LossState(a, b, k + 1)
    ensures !Overflows(LossState(a, b, k), LossMoves(a, b)[k], 10)
  {
    var fs := LossState(a, b, k).flights;
    if k == 2 || k == 5 {
      var i := LossMoves(a, b)[k].i;
      assert fs[i := LossState(a, b, k + 1).flights[i]] == LossState(a, b, k + 1).flights;
    } else if k == 6 || k == 7 {
      assert Without(fs, 0) == fs[1..] && [a] + [b] == [a, b];
      assert Refilled(fs[1..], 1, [a], 10) == if k == 6 then LossState(a, b, 7).flights else [];
    }
  }

  lemma {:induction false} LossRun(a: Row, b: Row, k: nat)
    requires k <= |LossMoves(a, b)|
    ensures Run(LossMoves(a, b)[..k], 10) == LossState(a, b, k)
  {
    if k > 0 {
      LossRun(a, b, k - 1);
      LossStep(a, b, k - 1);
      assert LossMoves(a, b)[..k][..k - 1] == LossMoves(a, b)[..k - 1];
    }
  }

  /** Two rows accepted, one lost, with nothing truncated. */
  lemma OverlapLosesRow(a: Row, b: Row)
    ensures var s := Run(LossMoves(a, b), 10); s.accepted == [a, b] && Line(s) == [b]
    ensures NeverOverflows(LossMoves(a, b), 10)
  {
    var n := |LossMoves(a, b)|;
    assert LossMoves(a, b)[..n] == LossMoves(a, b);
    LossRun(a, b, n);
    forall i | 0 <= i < n
      ensures !Overflows(Run(LossMoves(a, b)[..i], 10), LossMoves(a, b)[i], 10)
    {
      LossRun(a, b, i);
      LossStep(a, b, i);
    }
  }
}
