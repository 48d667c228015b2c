// streamStatistician.c: per-stream counters with resets, and the share of time spent waiting for frames.
module Statisticians {
  import opened MediaFrames

  const MAX_STREAMES := 8

  datatype Counter = Size | Frames | WaitMs | WaitTimes

  datatype Counters = Counters(size: nat, frames: nat, wait_ms: nat, wait_times: nat, start_time: int)
  {
    /** The sum of two periods; the start time is not summed. */
    function Plus(more: Counters): Counters {
      Counters(size + more.size, frames + more.frames, wait_ms + more.wait_ms, wait_times + more.wait_times, start_time)
    }

    function At(k: Counter): nat {
      match k
      case Size => size
      case Frames => frames
      case WaitMs => wait_ms
      case WaitTimes => wait_times
    }

    function Add(k: Counter, x: nat): Counters {
      match k
      case Size => this.(size := size + x)
      case Frames => this.(frames := frames + x)
      case WaitMs => this.(wait_ms := wait_ms + x)
      case WaitTimes => this.(wait_times := wait_times + x)
    }
  }

  const ZERO := Counters(0, 0, 0, 0, 0)

  datatype StreamStatistics = StreamStatistics(
    total: Counters, statistics: Counters, frame_start_time: int, kind: StreamType)

  /** The whole statistician as a value. */
  datatype Stats = Stats(streams: seq<StreamStatistics>, start_time: int)

  /** A stream as `memset` and its type leave it. */
  function Unused(kind: StreamType): StreamStatistics {
    StreamStatistics(ZERO, ZERO, 0, kind)
  }

  function AddedStream(s: Stats, kind: StreamType): Stats {
    if |s.streams| >= MAX_STREAMES then s
    else s.(streams := s.streams + [Unused(kind)])
  }

  /** `now` is what one reading of the clock gives, or the last of several. */
  function Begun(s: Stats, index: nat, first: int, second: int, now: int): Stats {
    if index >= |s.streams| then s
    else
      var stream := s.streams[index];
      var counters := stream.statistics;
      s.(start_time := if s.start_time == 0 then first else s.start_time,
         streams := s.streams[index := stream.(
           statistics := counters.(start_time := if counters.start_time == 0 then second else counters.start_time),
           frame_start_time := now)])
  }

  /** Waits under 10 ms are not counted. */
  function Waited(started: int, now: int): nat {
    var ms := (now - started) / 1000;
    if ms >= 10 then ms else 0
  }

  function Ended(s: Stats, index: nat, size: nat, now: int): Stats {
    if index >= |s.streams| then s
    else
      var stream := s.streams[index];
      var c := stream.statistics;
      var waited := Waited(stream.frame_start_time, now);
      s.(streams := s.streams[index := stream.(statistics := Counters(
           c.size + size, c.frames + 1, c.wait_ms + waited,
           c.wait_times + if waited > 0 then 1 else 0, c.start_time))])
  }

  function ResetStream(stream: StreamStatistics, now: int): StreamStatistics {
    stream.(total := stream.total.Plus(stream.statistics), statistics := ZERO.(start_time := now))
  }

  /** `clock[i]` is the time read for stream `i`. */
  function Reset(s: Stats, clock: seq<int>): Stats
    requires |clock| == |s.streams|
  {
    s.(streams := seq(|s.streams|, i requires 0 <= i < |s.streams| => ResetStream(s.streams[i], clock[i])))
  }

  /** The milliseconds waited in this period, over the first `n` streams. */
  ghost function WaitSum(streams: seq<StreamStatistics>, n: nat): nat
    requires n <= |streams|
  {
    if n == 0 then 0 else WaitSum(streams, n - 1) + streams[n - 1].statistics.wait_ms
  }

  /** The period that the factor divides by starts when the last stream's does. */
  ghost function PeriodStart(s: Stats): int {
    if s.streams == [] then 0 else s.streams[|s.streams| - 1].statistics.start_time
  }

  /** At most one stream differs, and that one keeps its total and its type. */
  ghost predicate OnlyStream(before: seq<StreamStatistics>, after: seq<StreamStatistics>, index: nat) {
    && |after| == |before|
    && (forall k | 0 <= k < |before| && k != index :: after[k] == before[k])
    && (index < |before| ==> after[index].total == before[index].total && after[index].kind == before[index].kind)
  }

  class StreamerStatistician {
    var streamers: seq<StreamStatistics>
    var start_time: int

    ghost function Abs(): Stats
      reads this
    {
      Stats(streamers, start_time)
    }

    constructor ()
      ensures Abs() == Stats([], 0)
    {
      streamers, start_time := [], 0;
    }

    method AddStream(kind: StreamType) returns (index: int)
      modifies this
      ensures Abs() == AddedStream(old(Abs()), kind)
      ensures start_time == old(start_time)
      ensures if |old(streamers)| >= MAX_STREAMES then index == -1 && streamers == old(streamers)
              else index == |old(streamers)| && |streamers| == |old(streamers)| + 1
                   && streamers[..index] == old(streamers) && streamers[index] == Unused(kind)
    {
      if |streamers| >= MAX_STREAMES {
        return -1;
      }
      index := |streamers|;
      streamers := streamers + [StreamStatistics(ZERO, ZERO, 0, kind)];
    }

    /** The begin is noted on its stream only; a start time that is set stays, and no counter moves. */
    method OnFrameBegin(index: nat, first: int, second: int, third: int)
      modifies this
      ensures Abs() == Begun(old(Abs()), index, first, second, third)
      ensures OnlyStream(old(streamers), streamers, index)
      ensures index >= |streamers| || old(start_time) != 0 ==> start_time == old(start_time)
      ensures index < |streamers| ==>
                var (before, after) := (old(streamers)[index], streamers[index]);
                && after.frame_start_time == third
                && after.statistics == before.statistics.(start_time := after.statistics.start_time)
                && (before.statistics.start_time != 0 ==> after.statistics == before.statistics)
                && (before.statistics.start_time == 0 ==> after.statistics.start_time == second)
    {
      if index >= |streamers| {
        return;
      }
      var stream := streamers[index];
      if start_time == 0 {
        start_time := first;
      }
      if stream.statistics.start_time == 0 {
        stream := stream.(statistics := stream.statistics.(start_time := second));
      }
      stream := stream.(frame_start_time := third);
      streamers := streamers[index := stream];
    }

    /** One frame more on its stream only; the wait is added exactly when it lasted ten milliseconds or more. */
    method OnFrameEnd(index: nat, size: nat, now: int)
      modifies this
      ensures Abs() == Ended(old(Abs()), index, size, now)
      ensures OnlyStream(old(streamers), streamers, index) && start_time == old(start_time)
      ensures index < |streamers| ==>
                var (before, after) := (old(streamers)[index].statistics, streamers[index].statistics);
                var elapsed := now - old(streamers)[index].frame_start_time;
                && after.frames == before.frames + 1 && after.size == before.size + size
                && after.start_time == before.start_time
                && after.wait_times == before.wait_times + (if elapsed >= 10000 then 1 else 0)
                && (elapsed >= 10000 ==> 0 <= elapsed - 1000 * (after.wait_ms - before.wait_ms) < 1000)
                && (elapsed < 10000 ==> after.wait_ms == before.wait_ms)
    {
      if index >= |streamers| {
        return;
      }
      var stream := streamers[index];
      var delayTimeMs := (now - stream.frame_start_time) / 1000;
      var c := stream.statistics;
      c := c.(frames := c.frames + 1);
      c := c.(size := c.size + size);
      if delayTimeMs >= 10 {
        c := c.(wait_times := c.wait_times + 1);
        c := c.(wait_ms := c.wait_ms + delayTimeMs);
      }
      streamers := streamers[index := stream.(statistics := c)];
    }

    /** `reset`; `clock` holds the time read for each stream. */
    method ResetAll(clock: seq<int>)
      requires |clock| == |streamers|
      modifies this
      ensures Abs() == Reset(old(Abs()), clock)
    {
      var i := 0;
      while i < |streamers|
        invariant 0 <= i <= |streamers| == |old(streamers)|
        invariant forall k | 0 <= k < i :: streamers[k] == ResetStream(old(streamers)[k], clock[k])
        invariant forall k | i <= k < |streamers| :: streamers[k] == old(streamers)[k]
        invariant start_time == old(start_time)
      {
        var stream := streamers[i];
        stream := stream.(total := stream.total.Plus(stream.statistics));
        stream := stream.(statistics := ZERO);
        stream := stream.(statistics := stream.statistics.(start_time := clock[i]));
        streamers := streamers[i := stream];
        i := i + 1;
      }
    }

    /** `getStreamBandWideFactor` in exact arithmetic, or None when no time has passed. */
    method GetStreamBandWideFactor(now: int) returns (factor: Option<real>)
      ensures var (wait, time) := (WaitSum(streamers, |streamers|), now - PeriodStart(Abs()));
              factor == if time == 0 then None
                        else Some(1.0 - ((wait as real / 1000.0) / (time as real / 1000000.0)))
    {
      var wait_ms, started := 0, 0;
      var i := 0;
      while i < |streamers|
        invariant 0 <= i <= |streamers|
        invariant wait_ms == WaitSum(streamers, i)
        invariant started == if i == 0 then 0 else streamers[i - 1].statistics.start_time
      {
        wait_ms := wait_ms + streamers[i].statistics.wait_ms;
        started := streamers[i].statistics.start_time;
        i := i + 1;
      }
      var time := now - started;
      if time == 0 {
        return None;
      }
      return Some(1.0 - ((wait_ms as real / 1000.0) / (time as real / 1000000.0)));
    }
  }
}
