/** Greedy left-to-right choice of observations whose forward windows do not overlap. */
module Sampling {

  /** Which indices are taken, scanning left to right from `next`: take one, then skip a horizon. */
  function Marks(indices: seq<int>, horizon: nat, next: int): (marks: seq<bool>)
    ensures |marks| == |indices|
  {
    if indices == [] then []
    else if indices[0] >= next then [true] + Marks(indices[1..], horizon, indices[0] + horizon)
    else [false] + Marks(indices[1..], horizon, next)
  }

  lemma MarksUnfold(indices: seq<int>, horizon: nat, next: int)
    requires indices != []
    ensures var marks := Marks(indices, horizon, next);
      && marks[0] == (indices[0] >= next)
      && marks[1..] == Marks(indices[1..], horizon, if indices[0] >= next then indices[0] + horizon else next)
  {
  }

  /** The first index allowed after a scan. */
  function NextAfter(indices: seq<int>, horizon: nat, next: int): int {
    if indices == [] then next
    else NextAfter(indices[1..], horizon, if indices[0] >= next then indices[0] + horizon else next)
  }

  /** Scanning one more index. */
  lemma {:induction false} MarksExtend(indices: seq<int>, x: int, horizon: nat, next: int)
    ensures var after := NextAfter(indices, horizon, next);
      && Marks(indices + [x], horizon, next) == Marks(indices, horizon, next) + [x >= after]
      && NextAfter(indices + [x], horizon, next) == if x >= after then x + horizon else after
    decreases |indices|
  {
    if indices == [] {
      assert [x][1..] == [] && [] + [x] == [x];
    } else {
      assert (indices + [x])[1..] == indices[1..] + [x];
      MarksExtend(indices[1..], x, horizon, if indices[0] >= next then indices[0] + horizon else next);
    }
  }

  function Chosen(picks: seq<bool>): nat {
    if picks == [] then 0 else (if picks[0] then 1 else 0) + Chosen(picks[1..])
  }

  predicate Increasing(indices: seq<int>) {
    forall i, j :: 0 <= i < j < |indices| ==> indices[i] < indices[j]
  }

  /** Any two picked indices are at least a horizon apart. */
  predicate Spaced(indices: seq<int>, picks: seq<bool>, horizon: nat) {
    && |picks| == |indices|
    && forall i, j :: 0 <= i < j < |picks| && picks[i] && picks[j] ==> indices[j] - indices[i] >= horizon
  }

  /** Every pick is at or after `next`. */
  predicate NotBefore(indices: seq<int>, picks: seq<bool>, next: int)
    requires |picks| == |indices|
  {
    forall i :: 0 <= i < |picks| && picks[i] ==> indices[i] >= next
  }

  lemma {:induction false} MarksAreSpaced(indices: seq<int>, horizon: nat, next: int)
    requires Increasing(indices)
    ensures Spaced(indices, Marks(indices, horizon, next), horizon)
    ensures NotBefore(indices, Marks(indices, horizon, next), next)
  {
    if indices != [] {
      var tail := indices[1..];
      var after := if indices[0] >= next then indices[0] + horizon else next;
      MarksAreSpaced(tail, horizon, after);
      var marks := Marks(indices, horizon, next);
      assert marks[1..] == Marks(tail, horizon, after);
      forall i, j | 0 <= i < j < |marks| && marks[i] && marks[j]
        ensures indices[j] - indices[i] >= horizon
      {
        assert marks[j] == marks[1..][j - 1] && indices[j] == tail[j - 1];
        if i > 0 {
          assert marks[i] == marks[1..][i - 1] && indices[i] == tail[i - 1];
        }
      }
    }
  }

  /** A spaced choice without its first pick. */
  function WithoutFirst(picks: seq<bool>): (rest: seq<bool>)
    ensures |rest| == |picks|
    ensures Chosen(picks) <= Chosen(rest) + 1
    ensures forall i :: 0 <= i < |picks| && rest[i] ==> picks[i] && exists f :: 0 <= f < i && picks[f]
  {
    if picks == [] then []
    else if picks[0] then
      assert forall i :: 0 < i < |picks| ==> ([false] + picks[1..])[i] == picks[i];
      assert ([false] + picks[1..])[1..] == picks[1..];
      [false] + picks[1..]
    else
      var rest := WithoutFirst(picks[1..]);
      assert ([false] + rest)[1..] == rest;
      assert forall i :: 0 <= i < |rest| && rest[i] ==> picks[1..][i] && exists f :: 0 <= f < i && picks[1..][f];
      assert forall f :: 0 <= f < |rest| && picks[1..][f] ==> picks[f + 1];
      [false] + rest
  }

  /** No spaced choice from `next` on has more members than the greedy one. */
  lemma {:induction false} GreedyBeats(indices: seq<int>, horizon: nat, next: int, picks: seq<bool>)
    requires Increasing(indices) && Spaced(indices, picks, horizon) && NotBefore(indices, picks, next)
    ensures Chosen(picks) <= Chosen(Marks(indices, horizon, next))
    decreases |indices|
  {
    if indices != [] {
      var tail, rest := indices[1..], picks[1..];
      assert Increasing(tail) && Spaced(tail, rest, horizon);
      if indices[0] < next {
        GreedyBeats(tail, horizon, next, rest);
      } else if picks[0] {
        GreedyBeats(tail, horizon, indices[0] + horizon, rest);
      } else {
        var fewer := WithoutFirst(rest);
        forall i | 0 <= i < |fewer| && fewer[i]
          ensures tail[i] >= indices[0] + horizon
        {
          var f :| 0 <= f < i && rest[f];
          assert tail[i] - tail[f] >= horizon && tail[f] > indices[0];
        }
        GreedyBeats(tail, horizon, indices[0] + horizon, fewer);
      }
    }
  }

  /** Main result: over strictly increasing indices the greedy marks are a maximum set of
      indices pairwise at least one horizon apart. */
  lemma GreedyIsMaximum(indices: seq<int>, horizon: nat, picks: seq<bool>)
    requires Increasing(indices) && (forall i :: 0 <= i < |indices| ==> indices[i] >= 0)
    requires Spaced(indices, picks, horizon)
    ensures Spaced(indices, Marks(indices, horizon, -1), horizon)
    ensures Chosen(picks) <= Chosen(Marks(indices, horizon, -1))
  {
    MarksAreSpaced(indices, horizon, -1);
    GreedyBeats(indices, horizon, -1, picks);
  }

  /** Marks of a prefix are a prefix of the marks. */
  lemma {:induction false} MarksOfPrefix(indices: seq<int>, horizon: nat, next: int, n: nat)
    requires n <= |indices|
    ensures Marks(indices[..n], horizon, next) == Marks(indices, horizon, next)[..n]
    decreases |indices|
  {
    if n > 0 {
      assert indices[..n][1..] == indices[1..][..n - 1];
      MarksOfPrefix(indices[1..], horizon, if indices[0] >= next then indices[0] + horizon else next, n - 1);
    }
  }
}
