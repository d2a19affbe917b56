/**
 * The playback scheduler's timeline arithmetic and its output nodes. Times are
 * seconds on the output AudioContext's own clock.
 */
module Playback {

  /** Where a chunk enqueued at clock reading `now` starts, given the timeline cursor. */
  function StartTime(cursor: real, now: real): (start: real)
    ensures start >= cursor && start >= now
    ensures start == cursor || start == now
  {
    if cursor >= now then cursor else now
  }

  /** One decoded chunk: the clock reading when it is enqueued and its duration. */
  datatype Chunk = Chunk(now: real, duration: real)

  ghost predicate NonNegative(chunks: seq<Chunk>) {
    forall i :: 0 <= i < |chunks| ==> chunks[i].duration >= 0.0
  }

  /** The start times the scheduler gives the chunks `chunks`, enqueued in order with no interrupt between them. */
  function Starts(cursor: real, chunks: seq<Chunk>): (r: seq<real>)
    ensures |r| == |chunks|
    decreases |chunks|
  {
    if chunks == [] then []
    else
      var s := StartTime(cursor, chunks[0].now);
      [s] + Starts(s + chunks[0].duration, chunks[1..])
  }

  /** The timeline cursor after enqueuing `chunks` in order. */
  function Cursor(cursor: real, chunks: seq<Chunk>): (end: real)
    decreases |chunks|
  {
    if chunks == [] then cursor
    else Cursor(StartTime(cursor, chunks[0].now) + chunks[0].duration, chunks[1..])
  }

  /** Enqueuing one more chunk appends its start time, taken from the cursor the earlier chunks left. */
  lemma {:induction false} StartsSnoc(cursor: real, chunks: seq<Chunk>, ch: Chunk)
    ensures Starts(cursor, chunks + [ch]) == Starts(cursor, chunks) + [StartTime(Cursor(cursor, chunks), ch.now)]
    ensures Cursor(cursor, chunks + [ch]) == StartTime(Cursor(cursor, chunks), ch.now) + ch.duration
    decreases |chunks|
  {
    if chunks == [] {
      assert chunks + [ch] == [ch];
      assert [ch][1..] == [];
    } else {
      var s := StartTime(cursor, chunks[0].now);
      assert (chunks + [ch])[0] == chunks[0];
      assert (chunks + [ch])[1..] == chunks[1..] + [ch];
      StartsSnoc(s + chunks[0].duration, chunks[1..], ch);
    }
  }

  /** Every chunk starts no earlier than the clock reading at which it was enqueued, nor earlier than the cursor. */
  lemma {:induction false} StartsNotEarly(cursor: real, chunks: seq<Chunk>)
    requires NonNegative(chunks)
    ensures forall i :: 0 <= i < |chunks| ==> Starts(cursor, chunks)[i] >= chunks[i].now
    ensures forall i :: 0 <= i < |chunks| ==> Starts(cursor, chunks)[i] >= cursor
    decreases |chunks|
  {
    if chunks != [] {
      var s := StartTime(cursor, chunks[0].now);
      var r := Starts(cursor, chunks);
      StartsNotEarly(s + chunks[0].duration, chunks[1..]);
      forall i | 1 <= i < |chunks| ensures r[i] >= chunks[i].now && r[i] >= cursor {
        assert r[i] == Starts(s + chunks[0].duration, chunks[1..])[i - 1];
      }
    }
  }

  /** Chunks never overlap: each chunk ends no later than any later chunk starts. */
  lemma {:induction false} StartsNoOverlap(cursor: real, chunks: seq<Chunk>)
    requires NonNegative(chunks)
    ensures forall i, j :: 0 <= i < j < |chunks| ==>
      Starts(cursor, chunks)[i] + chunks[i].duration <= Starts(cursor, chunks)[j]
    decreases |chunks|
  {
    if chunks != [] {
      var s := StartTime(cursor, chunks[0].now);
      var tail := Starts(s + chunks[0].duration, chunks[1..]);
      var r := Starts(cursor, chunks);
      assert r == [s] + tail;
      StartsNotEarly(s + chunks[0].duration, chunks[1..]);
      StartsNoOverlap(s + chunks[0].duration, chunks[1..]);
      forall i, j | 0 <= i < j < |chunks| ensures r[i] + chunks[i].duration <= r[j] {
        assert r[j] == tail[j - 1];
        if i > 0 {
          assert r[i] == tail[i - 1];
        }
      }
    }
  }

  /**
   * Gapless playback: a chunk that arrives before the previous one has ended
   * starts exactly when it ends; one that arrives later starts at once.
   */
  lemma {:induction false} StartsGapless(cursor: real, chunks: seq<Chunk>)
    ensures forall i :: 0 <= i < |chunks| - 1 ==>
      var r := Starts(cursor, chunks);
      var end := r[i] + chunks[i].duration;
      r[i + 1] == (if chunks[i + 1].now <= end then end else chunks[i + 1].now)
    decreases |chunks|
  {
    if chunks != [] {
      var s := StartTime(cursor, chunks[0].now);
      var tail := Starts(s + chunks[0].duration, chunks[1..]);
      var r := Starts(cursor, chunks);
      assert r == [s] + tail;
      StartsGapless(s + chunks[0].duration, chunks[1..]);
      forall i | 0 <= i < |chunks| - 1
        ensures r[i + 1] == (if chunks[i + 1].now <= r[i] + chunks[i].duration
                             then r[i] + chunks[i].duration else chunks[i + 1].now)
      {
        assert r[i + 1] == tail[i];
        if i > 0 {
          assert r[i] == tail[i - 1];
          assert chunks[i] == chunks[1..][i - 1] && chunks[i + 1] == chunks[1..][i];
        } else {
          assert Starts(s + chunks[0].duration, chunks[1..])[0]
              == StartTime(s + chunks[0].duration, chunks[1].now);
        }
      }
    }
  }

  /** The cursor never decreases, and after a non-empty batch it is the last chunk's end. */
  lemma {:induction false} CursorAdvances(cursor: real, chunks: seq<Chunk>)
    requires NonNegative(chunks)
    ensures Cursor(cursor, chunks) >= cursor
    ensures chunks != [] ==>
      Cursor(cursor, chunks) == Starts(cursor, chunks)[|chunks| - 1] + chunks[|chunks| - 1].duration
    decreases |chunks|
  {
    if chunks != [] {
      var s := StartTime(cursor, chunks[0].now);
      CursorAdvances(s + chunks[0].duration, chunks[1..]);
      if |chunks| > 1 {
        assert Starts(cursor, chunks)[|chunks| - 1]
            == Starts(s + chunks[0].duration, chunks[1..])[|chunks| - 2];
      }
    }
  }

  /** An AudioBufferSourceNode, created by enqueue and started at `startTime`. */
  class SourceNode {
    const startTime: real
    const duration: real
    var stopped: bool

    /** createBufferSource, with the decoded buffer, followed by start(startTime). */
    constructor (startTime: real, duration: real)
      ensures this.startTime == startTime && this.duration == duration && !stopped
    {
      this.startTime := startTime;
      this.duration := duration;
      stopped := false;
    }

    /** stop(): ends playback at once; a second stop is harmless. */
    method Stop()
      modifies this
      ensures stopped
    {
      stopped := true;
    }
  }
}
