/**
 * The batch cursor the hook's loop pulls from (`streamEngine.nextBatch(n)`):
 * the decoded event log and a read position. Each call hands out up to `n`
 * events in log order from the position and advances it past them; once the
 * position reaches the end, batches are empty.
 */
module Cursor {
  import opened Events

  function Min(a: int, b: int): int
  {
    if a <= b then a else b
  }

  /** The batch `nextBatch(maxCount)` returns from `position`: the next events of the log, at most `maxCount`. */
  function Slice(log: seq<StreamEvent>, position: nat, maxCount: nat): (r: seq<StreamEvent>)
    requires position <= |log|
    ensures position + |r| <= |log| && r == log[position..position + |r|]
    ensures |r| <= maxCount
    ensures |r| == maxCount || position + |r| == |log|
    ensures r == [] <==> maxCount == 0 || position == |log|
  {
    log[position..position + Min(maxCount, |log| - position)]
  }

  /**
   * Pulling `n` and then `m` events hands out the same events, in the same
   * order, as pulling `n + m` at once: the batches form the log.
   */
  lemma BatchesConcatenate(log: seq<StreamEvent>, position: nat, n: nat, m: nat)
    requires position <= |log|
    ensures var first := Slice(log, position, n);
      Slice(log, position, n) + Slice(log, position + |first|, m) == Slice(log, position, n + m)
  {
    var first := Slice(log, position, n);
    var second := Slice(log, position + |first|, m);
    assert first + second == log[position..position + |first| + |second|];
  }

  /** The events handed out by successive pulls of the given sizes. */
  function Pulls(log: seq<StreamEvent>, position: nat, sizes: seq<nat>): (r: seq<StreamEvent>)
    requires position <= |log|
    decreases |sizes|
  {
    if sizes == [] then []
    else
      var b := Slice(log, position, sizes[0]);
      b + Pulls(log, position + |b|, sizes[1..])
  }

  /**
   * However the pulls are sized, together they hand out a prefix of the
   * remaining log, in order, with no event skipped or repeated.
   */
  lemma {:induction false} PullsArePrefix(log: seq<StreamEvent>, position: nat, sizes: seq<nat>)
    requires position <= |log|
    ensures position + |Pulls(log, position, sizes)| <= |log|
    ensures Pulls(log, position, sizes) == log[position..position + |Pulls(log, position, sizes)|]
    decreases |sizes|
  {
    if sizes != [] {
      var b := Slice(log, position, sizes[0]);
      PullsArePrefix(log, position + |b|, sizes[1..]);
      var rest := Pulls(log, position + |b|, sizes[1..]);
      assert b + rest == log[position..position + |b| + |rest|];
    }
  }

  /**
   * Over the two-event log of the engine's unit test, a pull of 1 and then a
   * pull of 10 each hand out one event, first the trade and then the delta;
   * a further pull then finds the log exhausted.
   */
  lemma TwoEventLogInSlices(trade: StreamEvent, delta: StreamEvent)
    ensures Slice([trade, delta], 0, 1) == [trade]
    ensures Slice([trade, delta], 1, 10) == [delta]
    ensures Slice([trade, delta], 2, 1) == []
  {
    assert [trade, delta][0..1] == [trade];
    assert [trade, delta][1..2] == [delta];
  }

  class EventCursor {
    const log: seq<StreamEvent>
    var position: nat

    ghost predicate Valid()
      reads this
    {
      position <= |log|
    }

    constructor (events: seq<StreamEvent>)
      ensures Valid() && log == events && position == 0
    {
      log := events;
      position := 0;
    }

    /** `nextBatch(maxCount)`. */
    method NextBatch(maxCount: nat) returns (batch: seq<StreamEvent>)
      requires Valid()
      modifies this
      ensures Valid()
      ensures batch == Slice(log, old(position), maxCount)
      ensures position == old(position) + |batch|
      ensures log[old(position)..] == batch + log[position..]
    {
      var count := Min(maxCount, |log| - position);
      batch := log[position..position + count];
      position := position + count;
    }

    /** Rewinds to the start of the log without reloading it. */
    method Rewind()
      modifies this
      ensures Valid() && position == 0
    {
      position := 0;
    }
  }
}
