/**
 The paced frame writer under an arbitrary clock.

 A run is given as the turns of its loop: what the clock showed, what encoding and the
 writes did, whether a stop arrived.  Time is real-valued.  The only things asked of the
 environment are that the clock never goes back and that a full sleep is not cut short.
 */
module PacedWriter {
  import opened Common

  datatype Turn = Turn(
    stopped: bool,                  // the stop event was set at the top of the loop
    begin: real,                    // clock when the turn began
    encoded: Option<seq<bool>>,     // nothing: encoding raised; otherwise which writes succeeded
    written: real,                  // clock after the writes
    paced: real,                    // clock when the pause is computed
    woken: bool,                    // the stop event ended the pause
    resumed: real)                  // clock after the pause, or when the schedule is reset

  predicate Wrote(turn: Turn) {
    turn.encoded.Some? && exists i :: 0 <= i < |turn.encoded.value| && turn.encoded.value[i]
  }

  /** The clock never goes back. */
  predicate Clocked(start: real, turns: seq<Turn>) {
    && (forall k | 0 <= k < |turns| :: turns[k].begin <= turns[k].written <= turns[k].paced <= turns[k].resumed)
    && (forall k | 0 < k < |turns| :: turns[k - 1].resumed <= turns[k].begin)
    && (turns != [] ==> start <= turns[0].begin)
  }

  /** The time scheduled for turn `k`: one interval later, or now after an overrun. */
  function Scheduled(start: real, interval: real, turns: seq<Turn>, k: nat): real requires k <= |turns| {
    if k == 0 then start
    else
      var next := Scheduled(start, interval, turns, k - 1) + interval;
      if next > turns[k - 1].paced then next else turns[k - 1].resumed
  }

  /** Turn `k` ends with a pause. */
  predicate Pauses(start: real, interval: real, turns: seq<Turn>, k: nat) requires k < |turns| {
    Scheduled(start, interval, turns, k) + interval > turns[k].paced
  }

  /** A pause that no stop event ended lasts until the scheduled time. */
  predicate Rested(start: real, interval: real, turns: seq<Turn>) {
    forall k | 0 <= k < |turns| && !turns[k].woken :: Scheduled(start, interval, turns, k + 1) <= turns[k].resumed
  }

  /** Where frame `k` belongs: `k` intervals after the start. */
  function Place(start: real, interval: real, k: nat): real { start + k as real * interval }

  predicate InDuration(k: nat, duration: real, interval: real) { k as real * interval < duration }

  lemma Counted(start: real, interval: real, duration: real, k: nat, at: real)
    requires Place(start, interval, k) <= at < start + duration
    ensures InDuration(k, duration, interval)
  {}

  lemma PlaceNext(start: real, interval: real, k: nat)
    ensures Place(start, interval, 0) == start && Place(start, interval, k + 1) == Place(start, interval, k) + interval
  {
    assert (k + 1) as real * interval == k as real * interval + interval;
  }

  lemma {:induction false} ScheduleNeverCatchesUp(start: real, interval: real, turns: seq<Turn>, k: nat)
    requires k <= |turns| && Clocked(start, turns)
    ensures Scheduled(start, interval, turns, k) >= Place(start, interval, k)
  {
    hide Place;
    PlaceNext(start, interval, if k == 0 then 0 else k - 1);
    if k > 0 {
      ScheduleNeverCatchesUp(start, interval, turns, k - 1);
    }
  }

  /** No turn begins ahead of its place in the schedule, however late the earlier ones were. */
  lemma BeginsOnSchedule(start: real, interval: real, turns: seq<Turn>, k: nat)
    requires k < |turns| && Clocked(start, turns) && Rested(start, interval, turns) && (k > 0 ==> !turns[k - 1].woken)
    ensures turns[k].begin >= Place(start, interval, k)
  {
    ScheduleNeverCatchesUp(start, interval, turns, k);
    if k > 0 {
      assert Scheduled(start, interval, turns, k - 1 + 1) <= turns[k - 1].resumed;
    }
  }

  lemma {:induction false} WritesInOrder(start: real, turns: seq<Turn>, i: nat, j: nat)
    requires Clocked(start, turns) && i <= j < |turns|
    ensures turns[i].written <= turns[j].written
  {
    if i < j {
      WritesInOrder(start, turns, i, j - 1);
    }
  }

  function Ceiling(x: real): int { -((-x).Floor) }

  /** The last frame starting inside the duration is the same as the frame count being under the ceiling. */
  lemma CeilingBound(frames: nat, duration: real, interval: real)
    requires interval > 0.0 && frames > 0
    ensures InDuration(frames - 1, duration, interval) <==> frames <= Ceiling(duration / interval)
  {
    var x := duration / interval;
    var before := (frames - 1) as real;
    assert x * interval == duration;
    if before < x {
      Scale(before, x, interval);
    } else {
      Scale(x, before, interval);
    }
    assert before < x <==> frames <= Ceiling(x);
  }

  lemma Scale(a: real, b: real, c: real)
    requires a <= b && c > 0.0
    ensures a * c <= b * c && (a < b ==> a * c < b * c)
  {
    assert b * c - a * c == (b - a) * c;
  }

  lemma Starts(start: real, interval: real, turns: seq<Turn>)
    ensures Scheduled(start, interval, turns, 0) == start
  {}

  lemma Advances(start: real, interval: real, turns: seq<Turn>, k: nat)
    requires k < |turns|
    ensures var next := Scheduled(start, interval, turns, k) + interval;
      Scheduled(start, interval, turns, k + 1) == if next > turns[k].paced then next else turns[k].resumed
  {}

  lemma Rests(start: real, interval: real, turns: seq<Turn>, k: nat)
    requires k < |turns| && Rested(start, interval, turns)
    ensures !turns[k].woken ==> Scheduled(start, interval, turns, k + 1) <= turns[k].resumed
  {}

  /**
   The first `written` turns each wrote, none began ahead of its place, and the frames
   counted inside the duration are exactly the first `frames` of them.
   */
  ghost predicate Ledger(start: real, interval: real, duration: real, turns: seq<Turn>, written: nat, frames: nat) {
    && frames <= written <= |turns|
    && (forall k | 0 <= k < written ::
      !turns[k].stopped && Wrote(turns[k]) && (turns[k].written < start + duration <==> k < frames))
    && (forall k | 0 <= k < written :: turns[k].begin >= Place(start, interval, k))
    && (frames > 0 ==> InDuration(frames - 1, duration, interval))
  }

  lemma LedgerStarts(start: real, interval: real, duration: real, turns: seq<Turn>)
    ensures Ledger(start, interval, duration, turns, 0, 0)
  {}

  lemma LedgerNext(start: real, interval: real, duration: real, turns: seq<Turn>, written: nat, frames: nat)
    requires Ledger(start, interval, duration, turns, written, frames) && Clocked(start, turns)
    requires written < |turns| && !turns[written].stopped && Wrote(turns[written])
    requires turns[written].begin >= Place(start, interval, written)
    ensures Ledger(start, interval, duration, turns, written + 1, if turns[written].written < start +
      duration then frames + 1 else frames)
  {
    hide Place, InDuration, Wrote;
    if written > 0 {
      WritesInOrder(start, turns, written - 1, written);
    }
    if turns[written].written < start + duration {
      Counted(start, interval, duration, written, turns[written].written);
    }
  }

  lemma LedgerBound(start: real, interval: real, duration: real, turns: seq<Turn>, written: nat, frames: nat)
    requires Ledger(start, interval, duration, turns, written, frames)
    ensures interval > 0.0 && frames > 0 ==> frames <= Ceiling(duration / interval)
  {
    hide Place, InDuration, Ceiling;
    if interval > 0.0 && frames > 0 {
      CeilingBound(frames, duration, interval);
    }
  }

  /** The writes of one frame: a failed one does not keep the others back. */
  method WriteAll(turn: Turn) returns (wroteAny: bool)
    requires turn.encoded.Some?
    ensures wroteAny <==> Wrote(turn)
  {
    wroteAny := false;
    for i := 0 to |turn.encoded.value|
      invariant wroteAny <==> exists j :: 0 <= j < i && turn.encoded.value[j]
    {
      if turn.encoded.value[i] {
        wroteAny := true;
      }
    }
  }

  class PacedWriter {
    const duration: real
    const interval: real
    var frames: nat
    var tailFrames: nat
    var failed: bool
    var stoppedByFd: bool

    constructor (duration: real, interval: real)
      ensures this.duration == duration && this.interval == interval
      ensures frames == tailFrames == 0 && !failed && !stoppedByFd
    {
      this.duration, this.interval := duration, interval;
      frames, tailFrames, failed, stoppedByFd := 0, 0, false, false;
    }

    /**
     `_run`, up to any point of its life (`turns` may end before the loop does).  The
     first `written` turns are the ones that wrote; each is counted once.
     */
    method Run(start: real, turns: seq<Turn>) returns (written: nat)
      requires Clocked(start, turns) && Rested(start, interval, turns)
      requires frames == tailFrames == 0 && !failed && !stoppedByFd
      modifies this
      ensures frames + tailFrames == written <= |turns|
      ensures Ledger(start, interval, duration, turns, written, frames)
      ensures interval > 0.0 && frames > 0 ==> frames <= Ceiling(duration / interval)
      ensures failed ==> written < |turns| && !turns[written].stopped && turns[written].encoded.None?
      ensures stoppedByFd ==>
        written < |turns| && !turns[written].stopped && turns[written].encoded.Some? && !Wrote(turns[written])
      ensures !failed && !stoppedByFd ==>
        || written == |turns| || turns[written].stopped
        || (written > 0 && turns[written - 1].woken && Pauses(start, interval, turns, written - 1))
    {
      hide Place, InDuration, Ceiling, Scheduled, Wrote, Ledger, Rested;
      LedgerStarts(start, interval, duration, turns);
      Starts(start, interval, turns);
      var deadline := start + duration;
      var next := start;
      written := 0;
      while written < |turns| && !turns[written].stopped
        invariant frames + tailFrames == written <= |turns| && !failed && !stoppedByFd
        invariant next == Scheduled(start, interval, turns, written)
        invariant Ledger(start, interval, duration, turns, written, frames)
        invariant written > 0 ==> Scheduled(start, interval, turns, written) <= turns[written - 1].resumed
      {
        var turn := turns[written];
        if turn.encoded.None? {
          failed := true;
          break;
        }
        var wroteAny := WriteAll(turn);
        if !wroteAny {
          stoppedByFd := true;
          break;
        }
        assert Scheduled(start, interval, turns, written) <= turn.begin;
        ScheduleNeverCatchesUp(start, interval, turns, written);
        LedgerNext(start, interval, duration, turns, written, frames);
        if turn.written < deadline {
          frames := frames + 1;
        } else {
          tailFrames := tailFrames + 1;
        }
        Rests(start, interval, turns, written);
        Advances(start, interval, turns, written);
        next := next + interval;
        written := written + 1;
        if next - turn.paced > 0.0 {
          if turn.woken {
            break;
          }
        } else {
          next := turn.resumed;
        }
      }
      LedgerBound(start, interval, duration, turns, written, frames);
    }
  }
}
